/** The merged listings: each strategy's page, newest first, put together, sorted again and cut. */
module Listing {

  datatype Row = Row(id: int, createdAt: int)

  ghost predicate NewestFirst(rows: seq<Row>) {
    forall i, j :: 0 <= i < j < |rows| ==> rows[i].createdAt >= rows[j].createdAt
  }

  function Least(a: int, b: int): int {
    if a <= b then a else b
  }

  /** What the repository returns for one strategy whose rows are ordered newest first. */
  function Page(table: seq<Row>, page: nat, size: nat): seq<Row>
    requires page >= 1
  {
    table[Least((page - 1) * size, |table|)..Least((page - 1) * size + size, |table|)]
  }

  function Everything(tables: seq<seq<Row>>): seq<Row> {
    if tables == [] then [] else Everything(tables[..|tables| - 1]) + tables[|tables| - 1]
  }

  function Pages(tables: seq<seq<Row>>, page: nat, size: nat): seq<Row>
    requires page >= 1
  {
    if tables == [] then [] else Pages(tables[..|tables| - 1], page, size) + Page(tables[|tables| - 1], page, size)
  }

  /** The rows the first pages leave out. */
  ghost function Beyond(tables: seq<seq<Row>>, size: nat): seq<Row> {
    if tables == [] then []
    else
      var table := tables[|tables| - 1];
      Beyond(tables[..|tables| - 1], size) + table[Least(size, |table|)..]
  }

  /** `rows` are the `size` newest of `all`: sorted, taken from `all`, as many as there can be,
    * and no row left out is newer than one returned. */
  ghost predicate IsNewest(rows: seq<Row>, all: seq<Row>, size: nat) {
    && NewestFirst(rows)
    && |rows| == Least(size, |all|)
    && multiset(rows) <= multiset(all)
    && forall out: Row, row: Row :: out in multiset(all) - multiset(rows) && row in rows ==> out.createdAt <= row.createdAt
  }

  // ---- Counting rows at least as new as a given time ----

  ghost function AsNew(rows: seq<Row>, time: int): nat {
    if rows == [] then 0 else AsNew(rows[..|rows| - 1], time) + if rows[|rows| - 1].createdAt >= time then 1 else 0
  }

  lemma {:induction false} AsNewConcat(a: seq<Row>, b: seq<Row>, time: int)
    ensures AsNew(a + b, time) == AsNew(a, time) + AsNew(b, time)
  {
    if b == [] {
      assert a + b == a;
    } else {
      assert (a + b)[..|a + b| - 1] == a + b[..|b| - 1];
      AsNewConcat(a, b[..|b| - 1], time);
    }
  }

  lemma AsNewAround(before: seq<Row>, row: Row, after: seq<Row>, time: int)
    ensures AsNew(before + [row] + after, time) == AsNew(before + after, time) + AsNew([row], time)
  {
    AsNewConcat(before + [row], after, time);
    AsNewConcat(before, [row], time);
    AsNewConcat(before, after, time);
  }

  /** Taking one occurrence of a row out of a list. */
  lemma TakeOne(rows: seq<Row>, row: Row) returns (before: seq<Row>, after: seq<Row>)
    requires row in multiset(rows)
    ensures rows == before + [row] + after
    ensures multiset(before + after) == multiset(rows) - multiset{row}
  {
    var j :| 0 <= j < |rows| && rows[j] == row;
    before, after := rows[..j], rows[j + 1..];
    assert rows == before + [row] + after;
    assert multiset(rows) == multiset(before) + multiset{row} + multiset(after);
  }

  lemma {:induction false} AsNewOfPermutation(a: seq<Row>, b: seq<Row>, time: int)
    requires multiset(a) == multiset(b)
    ensures AsNew(a, time) == AsNew(b, time)
    decreases |a|
  {
    SameSize(a, b);
    if a != [] {
      var front, last := a[..|a| - 1], a[|a| - 1];
      assert multiset(a) == multiset(front) + multiset{last} by {
        assert a == front + [last];
      }
      var before, after := TakeOne(b, last);
      AsNewAround(before, last, after, time);
      AsNewOfPermutation(front, before + after, time);
    }
  }

  lemma SameSize(a: seq<Row>, b: seq<Row>)
    requires multiset(a) == multiset(b)
    ensures |a| == |b|
  {
    assert |multiset(a)| == |a| && |multiset(b)| == |b|;
  }

  lemma {:induction false} AllAsNew(rows: seq<Row>, time: int)
    requires forall i :: 0 <= i < |rows| ==> rows[i].createdAt >= time
    ensures AsNew(rows, time) == |rows|
  {
    if rows != [] {
      AllAsNew(rows[..|rows| - 1], time);
    }
  }

  lemma {:induction false} NoneAsNew(rows: seq<Row>, time: int)
    requires forall i :: 0 <= i < |rows| ==> rows[i].createdAt < time
    ensures AsNew(rows, time) == 0
  {
    if rows != [] {
      NoneAsNew(rows[..|rows| - 1], time);
    }
  }

  lemma {:induction false} AsNewAtMost(rows: seq<Row>, time: int)
    ensures AsNew(rows, time) <= |rows|
  {
    if rows != [] {
      AsNewAtMost(rows[..|rows| - 1], time);
    }
  }

  lemma FewAsNew(rows: seq<Row>, time: int, i: nat)
    requires NewestFirst(rows) && i < |rows| && rows[i].createdAt < time
    ensures AsNew(rows, time) <= i
  {
    assert rows == rows[..i] + rows[i..];
    AsNewConcat(rows[..i], rows[i..], time);
    AsNewAtMost(rows[..i], time);
    NoneAsNew(rows[i..], time);
  }

  // ---- The cut of a sorted list ----

  lemma CutSplits(merged: seq<Row>, cut: nat)
    requires cut <= |merged|
    ensures multiset(merged) == multiset(merged[..cut]) + multiset(merged[cut..])
  {
    assert merged == merged[..cut] + merged[cut..];
  }

  /** Sorting some rows and cutting gives the newest of them. */
  lemma CutIsNewest(rows: seq<Row>, merged: seq<Row>, size: nat)
    requires NewestFirst(merged) && multiset(merged) == multiset(rows)
    ensures IsNewest(merged[..Least(size, |merged|)], rows, size)
  {
    var cut := Least(size, |merged|);
    SameSize(merged, rows);
    CutSplits(merged, cut);
    assert multiset(rows) - multiset(merged[..cut]) == multiset(merged[cut..]);
    assert NewestFirst(merged[..cut]);
    forall out: Row, row: Row | out in multiset(merged[cut..]) && row in merged[..cut]
      ensures out.createdAt <= row.createdAt
    {
      TailIsOlder(merged, cut, out, row);
    }
  }

  lemma TailIsOlder(merged: seq<Row>, cut: nat, out: Row, row: Row)
    requires NewestFirst(merged) && cut <= |merged| && out in merged[cut..] && row in merged[..cut]
    ensures out.createdAt <= row.createdAt
  {
    var i :| 0 <= i < cut && merged[i] == row;
    var j :| cut <= j < |merged| && merged[j] == out;
  }

  // ---- The merge of the first pages ----

  /** A row no first page shows has `size` rows at least as new on its own strategy's page. */
  lemma {:induction false} BeyondIsCovered(tables: seq<seq<Row>>, size: nat, row: Row)
    requires forall t :: t in tables ==> NewestFirst(t)
    requires row in Beyond(tables, size)
    ensures AsNew(Pages(tables, 1, size), row.createdAt) >= size
  {
    var last := |tables| - 1;
    var table, others := tables[last], tables[..last];
    var page := Page(table, 1, size);
    assert table in tables && forall t :: t in others ==> t in tables;
    AsNewConcat(Pages(others, 1, size), page, row.createdAt);
    if row in Beyond(others, size) {
      BeyondIsCovered(others, size, row);
    } else {
      var i :| Least(size, |table|) <= i < |table| && table[i] == row;
      AllAsNew(page, row.createdAt);
    }
  }

  lemma TableSplits(table: seq<Row>, size: nat)
    ensures multiset(table) == multiset(Page(table, 1, size)) + multiset(table[Least(size, |table|)..])
  {
    CutSplits(table, Least(size, |table|));
    assert Page(table, 1, size) == table[..Least(size, |table|)];
  }

  lemma MultisetConcat(a: seq<Row>, b: seq<Row>)
    ensures multiset(a + b) == multiset(a) + multiset(b)
  {
  }

  lemma {:induction false} PagesAndBeyond(tables: seq<seq<Row>>, size: nat)
    ensures multiset(Everything(tables)) == multiset(Pages(tables, 1, size)) + multiset(Beyond(tables, size))
  {
    if tables != [] {
      var others, table := tables[..|tables| - 1], tables[|tables| - 1];
      var page, rest := Page(table, 1, size), table[Least(size, |table|)..];
      PagesAndBeyond(others, size);
      TableSplits(table, size);
      MultisetConcat(Everything(others), table);
      MultisetConcat(Pages(others, 1, size), page);
      MultisetConcat(Beyond(others, size), rest);
    }
  }

  lemma {:induction false} FirstPagesSuffice(tables: seq<seq<Row>>, size: nat)
    ensures Least(size, |Everything(tables)|) <= |Pages(tables, 1, size)| <= |Everything(tables)|
  {
    if tables != [] {
      FirstPagesSuffice(tables[..|tables| - 1], size);
    }
  }

  /** What a cut list leaves out of everything is its tail and the rows beyond the pages. */
  lemma OmittedRows(merged: seq<Row>, cut: nat, all: seq<Row>, beyond: seq<Row>)
    requires cut <= |merged| && multiset(all) == multiset(merged) + multiset(beyond)
    ensures multiset(merged[..cut]) <= multiset(all)
    ensures forall out: Row :: out in multiset(all) - multiset(merged[..cut]) ==> out in merged[cut..] || out in beyond
  {
    CutSplits(merged, cut);
    assert multiset(all) - multiset(merged[..cut]) == multiset(merged[cut..]) + multiset(beyond);
  }

  lemma OmittedIsOlder(tables: seq<seq<Row>>, size: nat, merged: seq<Row>, out: Row, row: Row)
    requires forall t :: t in tables ==> NewestFirst(t)
    requires NewestFirst(merged) && multiset(merged) == multiset(Pages(tables, 1, size))
    requires row in merged[..Least(size, |merged|)]
    requires out in merged[Least(size, |merged|)..] || out in Beyond(tables, size)
    ensures out.createdAt <= row.createdAt
  {
    var cut := Least(size, |merged|);
    var i :| 0 <= i < cut && merged[i] == row;
    if out in merged[cut..] {
      var j :| cut <= j < |merged| && merged[j] == out;
    } else {
      BeyondIsCovered(tables, size, out);
      AsNewOfPermutation(merged, Pages(tables, 1, size), out.createdAt);
      if merged[i].createdAt < out.createdAt {
        FewAsNew(merged, out.createdAt, i);
      }
    }
  }

  /** Sorting the first pages and cutting gives the newest rows of all strategies together,
    * whichever way the sort orders rows of equal time. */
  lemma MergedPageIsNewest(tables: seq<seq<Row>>, size: nat, merged: seq<Row>)
    requires forall t :: t in tables ==> NewestFirst(t)
    requires NewestFirst(merged) && multiset(merged) == multiset(Pages(tables, 1, size))
    ensures IsNewest(merged[..Least(size, |merged|)], Everything(tables), size)
  {
    var cut, all := Least(size, |merged|), Everything(tables);
    SameSize(merged, Pages(tables, 1, size));
    FirstPagesSuffice(tables, size);
    PagesAndBeyond(tables, size);
    OmittedRows(merged, cut, all, Beyond(tables, size));
    forall out: Row, row: Row | out in multiset(all) - multiset(merged[..cut]) && row in merged[..cut]
      ensures out.createdAt <= row.createdAt
    {
      OmittedIsOlder(tables, size, merged, out, row);
    }
  }

  // ---- Which rows some page shows ----

  predicate DistinctRows(rows: seq<Row>) {
    forall i, j :: 0 <= i < j < |rows| ==> rows[i] != rows[j]
  }

  /** The lists returned for every page: each the newest rows of what the strategies' pages give. */
  ghost predicate Listings(tables: seq<seq<Row>>, size: nat, cut: nat -> seq<Row>) {
    forall page: nat :: page >= 1 ==> IsNewest(cut(page), Pages(tables, page, size), size)
  }

  ghost predicate Shown(row: Row, cut: nat -> seq<Row>) {
    exists page: nat :: page >= 1 && row in cut(page)
  }

  /** Which slice of a table a page is. */
  lemma PageBounds(page: nat, size: nat, i: nat)
    requires size >= 1
    ensures i / size * size <= i < i / size * size + size
    ensures page >= 2 ==> (page - 1) * size >= size
  {
    if page >= 2 {
      assert (page - 1) * size == size + (page - 2) * size;
    }
  }

  lemma OnItsPage(table: seq<Row>, size: nat, i: nat)
    requires size >= 1 && i < |table|
    ensures table[i] in Page(table, i / size + 1, size)
  {
    PageBounds(1, size, i);
    var page, from := Page(table, i / size + 1, size), i / size * size;
    assert page[i - from] == table[i];
  }

  /** A row of a table's first page is on no later page of it. */
  lemma PagesAreApart(table: seq<Row>, size: nat, page: nat, row: Row)
    requires size >= 1 && page >= 2 && DistinctRows(table) && row in Page(table, 1, size)
    ensures row !in Page(table, page, size)
  {
    var from := (page - 1) * size;
    PageBounds(page, size, 0);
    var i :| 0 <= i < Least(size, |table|) && table[i] == row;
    assert forall j :: from <= j < |table| ==> table[i] != table[j];
  }

  lemma PageIsOfTable(table: seq<Row>, page: nat, size: nat, row: Row)
    requires page >= 1 && row in Page(table, page, size)
    ensures row in table
  {
  }

  lemma {:induction false} PagesAreOfTables(tables: seq<seq<Row>>, page: nat, size: nat, row: Row)
    requires page >= 1 && row in Pages(tables, page, size)
    ensures row in Everything(tables)
  {
    var others := tables[..|tables| - 1];
    if row in Pages(others, page, size) {
      PagesAreOfTables(others, page, size, row);
    }
  }

  lemma DistinctParts(a: seq<Row>, b: seq<Row>)
    requires DistinctRows(a + b)
    ensures DistinctRows(a) && DistinctRows(b) && forall row :: row in a ==> row !in b
  {
    assert forall i :: 0 <= i < |a| ==> (a + b)[i] == a[i];
    assert forall i :: 0 <= i < |b| ==> (a + b)[|a| + i] == b[i];
  }

  /** So a row of the first pages is on no later page. */
  lemma {:induction false} FirstPageOnly(tables: seq<seq<Row>>, size: nat, page: nat, row: Row)
    requires size >= 1 && page >= 2 && DistinctRows(Everything(tables)) && row in Pages(tables, 1, size)
    ensures row !in Pages(tables, page, size)
  {
    var others, table := tables[..|tables| - 1], tables[|tables| - 1];
    DistinctParts(Everything(others), table);
    if row in Pages(others, 1, size) {
      PagesAreOfTables(others, 1, size, row);
      FirstPageOnly(others, size, page, row);
    } else {
      PagesAreApart(table, size, page, row);
      if row in Pages(others, page, size) {
        PagesAreOfTables(others, page, size, row);
      }
    }
  }

  lemma PageIsShorter(table: seq<Row>, page: nat, size: nat)
    requires page >= 1
    ensures |Page(table, page, size)| <= |Page(table, 1, size)|
  {
    var from := (page - 1) * size;
    assert from >= 0;
  }

  lemma {:induction false} LaterPagesAreShorter(tables: seq<seq<Row>>, page: nat, size: nat)
    requires page >= 1
    ensures |Pages(tables, page, size)| <= |Pages(tables, 1, size)|
  {
    if tables != [] {
      PageIsShorter(tables[|tables| - 1], page, size);
      LaterPagesAreShorter(tables[..|tables| - 1], page, size);
    }
  }

  /** Every row is on the page its place in its strategy's table gives. */
  lemma {:induction false} SomePageHolds(tables: seq<seq<Row>>, size: nat, row: Row) returns (page: nat)
    requires size >= 1 && row in Everything(tables)
    ensures page >= 1 && row in Pages(tables, page, size)
  {
    var others, table := tables[..|tables| - 1], tables[|tables| - 1];
    if row in table {
      var i :| 0 <= i < |table| && table[i] == row;
      OnItsPage(table, size, i);
      page := i / size + 1;
    } else {
      page := SomePageHolds(others, size, row);
    }
  }

  lemma UncutPageIsWhole(rows: seq<Row>, all: seq<Row>, size: nat, row: Row)
    requires IsNewest(rows, all, size) && |all| <= size && row in all
    ensures row in rows
  {
    assert |multiset(all)| == |all| && |multiset(rows)| == |rows|;
    assert |multiset(all) - multiset(rows)| == 0;
    assert row in multiset(all);
  }

  lemma CutPageDropsARow(rows: seq<Row>, all: seq<Row>, size: nat) returns (row: Row)
    requires IsNewest(rows, all, size) && |all| > size
    ensures row in all && multiset(rows)[row] < multiset(all)[row]
  {
    assert |multiset(all)| == |all| && |multiset(rows)| == |rows|;
    assert |multiset(all) - multiset(rows)| > 0;
    row :| row in multiset(all) - multiset(rows);
  }

  lemma {:induction false} OnceIfDistinct(rows: seq<Row>, row: Row)
    requires DistinctRows(rows)
    ensures multiset(rows)[row] <= 1
  {
    if rows != [] {
      var front, last := rows[..|rows| - 1], rows[|rows| - 1];
      OnceIfDistinct(front, row);
      assert rows == front + [last];
    }
  }

  lemma PagesHoldNoMore(tables: seq<seq<Row>>, size: nat, row: Row)
    ensures multiset(Pages(tables, 1, size))[row] <= multiset(Everything(tables))[row]
  {
    PagesAndBeyond(tables, size);
  }

  /** Every row is shown by some page exactly when the first pages together fit one page: what a
    * first page has cut is never shown again, and later pages are no longer. */
  lemma EveryRowIsShownIff(tables: seq<seq<Row>>, size: nat, cut: nat -> seq<Row>)
    requires size >= 1 && DistinctRows(Everything(tables)) && Listings(tables, size, cut)
    ensures (forall row :: row in Everything(tables) ==> Shown(row, cut)) <==> |Pages(tables, 1, size)| <= size
  {
    if |Pages(tables, 1, size)| <= size {
      forall row | row in Everything(tables) ensures Shown(row, cut) {
        var page := SomePageHolds(tables, size, row);
        LaterPagesAreShorter(tables, page, size);
        UncutPageIsWhole(cut(page), Pages(tables, page, size), size, row);
      }
    } else {
      var row := ALostRow(tables, size, cut);
    }
  }

  lemma ALostRow(tables: seq<seq<Row>>, size: nat, cut: nat -> seq<Row>) returns (row: Row)
    requires size >= 1 && DistinctRows(Everything(tables)) && Listings(tables, size, cut)
    requires |Pages(tables, 1, size)| > size
    ensures row in Everything(tables) && !Shown(row, cut)
  {
    row := DroppedFromFirst(tables, size, cut(1));
    forall page: nat | page >= 2 ensures row !in cut(page) {
      FirstPageOnly(tables, size, page, row);
      NewestAreOf(cut(page), Pages(tables, page, size), size, row);
    }
  }

  lemma DroppedFromFirst(tables: seq<seq<Row>>, size: nat, rows: seq<Row>) returns (row: Row)
    requires DistinctRows(Everything(tables)) && IsNewest(rows, Pages(tables, 1, size), size)
    requires |Pages(tables, 1, size)| > size
    ensures row in Pages(tables, 1, size) && row in Everything(tables) && row !in rows
  {
    row := CutPageDropsARow(rows, Pages(tables, 1, size), size);
    PagesAreOfTables(tables, 1, size, row);
    OnceIfDistinct(Everything(tables), row);
    PagesHoldNoMore(tables, size, row);
    assert row in rows <==> row in multiset(rows);
  }

  lemma NewestAreOf(rows: seq<Row>, all: seq<Row>, size: nat, row: Row)
    requires IsNewest(rows, all, size) && row !in all
    ensures row !in rows
  {
    assert row in rows <==> row in multiset(rows);
    assert row in all <==> row in multiset(all);
  }

  /** In the caller's terms: at most one strategy has rows, or all rows together fit one page. */
  lemma {:induction false} FirstPagesFitIff(tables: seq<seq<Row>>, size: nat)
    requires size >= 1
    ensures |Pages(tables, 1, size)| <= size <==> |Everything(tables)| <= size || Holders(tables) <= 1
    ensures Holders(tables) == 0 <==> Everything(tables) == []
    ensures Holders(tables) == 0 <==> Pages(tables, 1, size) == []
    ensures Holders(tables) == 1 ==> |Pages(tables, 1, size)| == Least(size, |Everything(tables)|)
    ensures |Pages(tables, 1, size)| < size ==> |Everything(tables)| == |Pages(tables, 1, size)|
  {
    if tables != [] {
      var others, table := tables[..|tables| - 1], tables[|tables| - 1];
      FirstPagesFitIff(others, size);
      FirstPagesSuffice(others, size);
      assert |Page(table, 1, size)| == Least(size, |table|);
    }
  }

  /** How many strategies have rows. */
  ghost function Holders(tables: seq<seq<Row>>): nat {
    if tables == [] then 0 else Holders(tables[..|tables| - 1]) + if tables[|tables| - 1] != [] then 1 else 0
  }

  lemma NewerComesFirst(merged: seq<Row>, newer: Row, older: Row)
    requires NewestFirst(merged) && multiset(merged) == multiset([newer, older]) && newer.createdAt > older.createdAt
    ensures |merged| == 2 && merged[0] == newer
  {
    SameSize(merged, [newer, older]);
    assert newer in multiset(merged);
    var i :| 0 <= i < |merged| && merged[i] == newer;
    assert merged[0] in multiset(merged);
  }

  lemma OneTable(table: seq<Row>, page: nat, size: nat)
    requires page >= 1
    ensures Pages([table], page, size) == Page(table, page, size) && Everything([table]) == table
  {
    assert [table][..0] == [];
    assert [] + table == table && [] + Page(table, page, size) == Page(table, page, size);
  }

  lemma TwoTables(first: seq<Row>, second: seq<Row>, page: nat, size: nat)
    requires page >= 1
    ensures Pages([first, second], page, size) == Page(first, page, size) + Page(second, page, size)
    ensures Everything([first, second]) == first + second
  {
    OneTable(first, page, size);
    assert [first, second][..1] == [first];
  }

  lemma SingleRowPages(row: Row, page: nat)
    requires page >= 1
    ensures Page([row], page, 1) == if page == 1 then [row] else []
  {
  }

  /** A listing that loses a row: with pages of one row and two strategies of one row each, the
    * older row never shows. */
  lemma LaterPagesCanLoseRows(shown: Row, lost: Row, merged: seq<Row>, page: nat)
    requires shown.createdAt > lost.createdAt && page >= 2
    requires NewestFirst(merged) && multiset(merged) == multiset(Pages([[shown], [lost]], 1, 1))
    ensures Everything([[shown], [lost]]) == [shown, lost]
    ensures merged[..Least(1, |merged|)] == [shown]
    ensures Pages([[shown], [lost]], page, 1) == []
  {
    TwoTables([shown], [lost], 1, 1);
    TwoTables([shown], [lost], page, 1);
    SingleRowPages(shown, 1);
    SingleRowPages(lost, 1);
    SingleRowPages(shown, page);
    SingleRowPages(lost, page);
    assert [shown] + [lost] == [shown, lost];
    NewerComesFirst(merged, shown, lost);
  }

  // ---- The listing itself ----

  /** Where a row goes when rows already placed keep their place among equals. */
  function Slot(sorted: seq<Row>, row: Row, i: nat): (slot: nat)
    requires i <= |sorted| && NewestFirst(sorted)
    requires forall j :: 0 <= j < i ==> sorted[j].createdAt >= row.createdAt
    ensures i <= slot <= |sorted|
    ensures forall j :: 0 <= j < slot ==> sorted[j].createdAt >= row.createdAt
    ensures forall j :: slot <= j < |sorted| ==> sorted[j].createdAt < row.createdAt
    decreases |sorted| - i
  {
    if i == |sorted| || sorted[i].createdAt < row.createdAt then i else Slot(sorted, row, i + 1)
  }

  function Inserted(sorted: seq<Row>, row: Row): seq<Row>
    requires NewestFirst(sorted)
  {
    var slot := Slot(sorted, row, 0);
    sorted[..slot] + [row] + sorted[slot..]
  }

  lemma InsertedIsSorted(sorted: seq<Row>, row: Row)
    requires NewestFirst(sorted)
    ensures NewestFirst(Inserted(sorted, row))
  {
    var slot, r := Slot(sorted, row, 0), Inserted(sorted, row);
    assert forall i :: 0 <= i < |r| ==> r[i] == if i < slot then sorted[i] else if i == slot then row else sorted[i - 1];
  }

  lemma InsertedHolds(sorted: seq<Row>, row: Row)
    requires NewestFirst(sorted)
    ensures multiset(Inserted(sorted, row)) == multiset(sorted) + multiset{row}
  {
    CutSplits(sorted, Slot(sorted, row, 0));
  }

  /** Stable sort by creation time, newest first. */
  method SortNewestFirst(rows: seq<Row>) returns (sorted: seq<Row>)
    ensures NewestFirst(sorted) && multiset(sorted) == multiset(rows)
  {
    sorted := [];
    for n := 0 to |rows|
      invariant NewestFirst(sorted) && multiset(sorted) == multiset(rows[..n])
    {
      assert rows[..n + 1] == rows[..n] + [rows[n]];
      InsertedIsSorted(sorted, rows[n]);
      InsertedHolds(sorted, rows[n]);
      sorted := Inserted(sorted, rows[n]);
    }
    assert rows[..|rows|] == rows;
  }

  /** Lists one page over all of a user's strategies, with the total count: the newest of the rows
    * on the strategies' pages, and for the first page the newest of all. */
  method ListAll(tables: seq<seq<Row>>, page: nat, size: nat) returns (rows: seq<Row>, total: nat)
    requires page >= 1 && forall t :: t in tables ==> NewestFirst(t)
    ensures total == |Everything(tables)|
    ensures IsNewest(rows, Pages(tables, page, size), size)
    ensures page == 1 ==> IsNewest(rows, Everything(tables), size)
  {
    var all := [];
    total := 0;
    for n := 0 to |tables|
      invariant all == Pages(tables[..n], page, size) && total == |Everything(tables[..n])|
    {
      assert tables[..n + 1][..n] == tables[..n];
      all := all + Page(tables[n], page, size);
      total := total + |tables[n]|;
    }
    assert tables[..|tables|] == tables;
    var merged := SortNewestFirst(all);
    rows := merged[..Least(size, |merged|)];
    CutIsNewest(all, merged, size);
    if page == 1 {
      MergedPageIsNewest(tables, size, merged);
    }
  }
}

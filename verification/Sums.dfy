/** Sums over database tables, which the model keeps as sequences of rows. */
module Sums {

  datatype Option<+T> = None | Some(value: T)

  /** Index of the first row from `from` on that satisfies `p`, or the table's length. */
  function First<T>(rows: seq<T>, p: T -> bool, from: nat): (i: nat)
    requires from <= |rows|
    ensures from <= i <= |rows|
    ensures i < |rows| ==> p(rows[i])
    ensures forall j :: from <= j < i ==> !p(rows[j])
    decreases |rows| - from
  {
    if from == |rows| || p(rows[from]) then from else First(rows, p, from + 1)
  }

  /** How many of the first `n` rows differ between two versions of a table. */
  function Differing<T(==)>(a: seq<T>, b: seq<T>, n: nat): nat
    requires n <= |a| && n <= |b|
  {
    if n == 0 then 0 else Differing(a, b, n - 1) + if a[n - 1] != b[n - 1] then 1 else 0
  }

  /** How many rows satisfy `p`. */
  function CountOf<T>(rows: seq<T>, p: T -> bool): nat {
    if rows == [] then 0 else CountOf(rows[..|rows| - 1], p) + if p(rows[|rows| - 1]) then 1 else 0
  }

  lemma CountOfAppend<T>(rows: seq<T>, row: T, p: T -> bool)
    ensures CountOf(rows + [row], p) == CountOf(rows, p) + if p(row) then 1 else 0
  {
    assert (rows + [row])[..|rows|] == rows;
  }

  lemma CountOfNext<T>(rows: seq<T>, i: nat, p: T -> bool)
    requires i < |rows|
    ensures CountOf(rows[..i + 1], p) == CountOf(rows[..i], p) + if p(rows[i]) then 1 else 0
  {
    assert rows[..i + 1][..i] == rows[..i];
  }

  ghost function SumOver<T>(rows: seq<T>, f: T -> real): real {
    if rows == [] then 0.0 else f(rows[0]) + SumOver(rows[1..], f)
  }

  lemma {:induction false} SumConcat<T>(a: seq<T>, b: seq<T>, f: T -> real)
    ensures SumOver(a + b, f) == SumOver(a, f) + SumOver(b, f)
  {
    if a == [] {
      assert a + b == b;
    } else {
      assert (a + b)[1..] == a[1..] + b;
      SumConcat(a[1..], b, f);
    }
  }

  lemma SumAppend<T>(rows: seq<T>, row: T, f: T -> real)
    ensures SumOver(rows + [row], f) == SumOver(rows, f) + f(row)
  {
    SumConcat(rows, [row], f);
  }

  /** A sum around one row of the table. */
  lemma SumAround<T>(before: seq<T>, row: T, after: seq<T>, f: T -> real)
    ensures SumOver(before + [row] + after, f) == SumOver(before, f) + f(row) + SumOver(after, f)
  {
    SumConcat(before + [row], after, f);
    SumAppend(before, row, f);
  }

  /** Overwriting one row changes a sum by that row's old and new contribution only. */
  lemma SumUpdate<T>(rows: seq<T>, i: nat, row: T, f: T -> real)
    requires i < |rows|
    ensures SumOver(rows[i := row], f) == SumOver(rows, f) - f(rows[i]) + f(row)
  {
    var before, after := rows[..i], rows[i + 1..];
    assert SumOver(rows, f) == SumOver(before, f) + f(rows[i]) + SumOver(after, f) by {
      SumAround(before, rows[i], after, f);
      assert rows == before + [rows[i]] + after;
    }
    assert SumOver(rows[i := row], f) == SumOver(before, f) + f(row) + SumOver(after, f) by {
      SumAround(before, row, after, f);
      assert rows[i := row] == before + [row] + after;
    }
  }

  /** Removing one row. */
  lemma {:induction false} SumRemove<T>(rows: seq<T>, i: nat, f: T -> real)
    requires i < |rows|
    ensures SumOver(rows[..i] + rows[i + 1..], f) == SumOver(rows, f) - f(rows[i])
  {
    var left := rows[..i] + rows[i + 1..];
    if i == 0 {
      assert left == rows[1..];
    } else {
      assert left[0] == rows[0];
      assert left[1..] == rows[1..][..i - 1] + rows[1..][i..];
      SumRemove(rows[1..], i - 1, f);
    }
  }

  /** Contributions that split row by row split in the sum. */
  lemma {:induction false} SumSplit<T>(rows: seq<T>, f: T -> real, g: T -> real, h: T -> real)
    requires forall i :: 0 <= i < |rows| ==> f(rows[i]) == g(rows[i]) + h(rows[i])
    ensures SumOver(rows, f) == SumOver(rows, g) + SumOver(rows, h)
  {
    if rows != [] {
      SumSplit(rows[1..], f, g, h);
    }
  }

  /** Two tables of equal length whose rows contribute alike have the same sum. */
  lemma {:induction false} SumSame<S, T>(a: seq<S>, f: S -> real, b: seq<T>, g: T -> real)
    requires |a| == |b|
    requires forall i :: 0 <= i < |a| ==> f(a[i]) == g(b[i])
    ensures SumOver(a, f) == SumOver(b, g)
  {
    if a != [] {
      SumSame(a[1..], f, b[1..], g);
    }
  }
}

/** Tables as the dashboard sees them: a column list and rows mapping column
    names to cells, with the row filters and group-by reductions the pages use. */
module Frames {
  import opened Wrappers
  import Seqs

  /** A table cell: a number, a text value, a parsed date-time (nanoseconds
      since the epoch) or a missing value (NaN or NaT). */
  datatype Cell = Num(x: real) | Text(s: string) | Stamp(ns: int) | Missing

  type Row = map<string, Cell>

  datatype Frame = Frame(columns: seq<string>, rows: seq<Row>)

  /** The cell of `row` under column `c`; a row without that key holds a missing value. */
  function Get(row: Row, c: string): Cell
  {
    if c in row then row[c] else Missing
  }

  function ColumnCells(rows: seq<Row>, c: string): (cells: seq<Cell>)
    ensures |cells| == |rows|
    ensures forall i :: 0 <= i < |rows| ==> cells[i] == Get(rows[i], c)
  {
    seq(|rows|, i requires 0 <= i < |rows| => Get(rows[i], c))
  }

  // ----- range filters: df[(df[c] >= lo) & (df[c] <= hi)] -----

  /** Both comparisons hold; a missing or non-numeric cell compares false. */
  predicate InRange(row: Row, c: string, lo: real, hi: real)
  {
    Get(row, c).Num? && lo <= Get(row, c).x && Get(row, c).x <= hi
  }

  function FilterRange(rows: seq<Row>, c: string, lo: real, hi: real): (r: seq<Row>)
    ensures forall i :: 0 <= i < |r| ==> r[i] in rows && InRange(r[i], c, lo, hi)
    ensures forall i :: 0 <= i < |rows| && InRange(rows[i], c, lo, hi) ==> rows[i] in r
  {
    Seqs.Filter((row: Row) => InRange(row, c, lo, hi), rows)
  }

  /** A range whose bounds are in the wrong order keeps nothing. */
  lemma EmptyRangeKeepsNothing(rows: seq<Row>, c: string, lo: real, hi: real)
    requires hi < lo
    ensures FilterRange(rows, c, lo, hi) == []
  {
    Seqs.FilterKeepsNone((row: Row) => InRange(row, c, lo, hi), rows);
  }

  /** The range filter keeps rows in their original order: it distributes over
      a split of the table into a leading and a trailing part. */
  lemma FilterRangeAppend(a: seq<Row>, b: seq<Row>, c: string, lo: real, hi: real)
    ensures FilterRange(a + b, c, lo, hi) == FilterRange(a, c, lo, hi) + FilterRange(b, c, lo, hi)
  {
    Seqs.FilterAppend((row: Row) => InRange(row, c, lo, hi), a, b);
  }

  // ----- numeric columns, their extent, sum and mean -----

  /** The numbers in column `c`, in row order, NaN and text skipped (what
      `min`, `max`, `sum` and `mean` of a column see). */
  function NumericValues(rows: seq<Row>, c: string): (xs: seq<real>)
    ensures |xs| <= |rows|
    ensures |xs| == 0 <==> forall i :: 0 <= i < |rows| ==> !Get(rows[i], c).Num?
    ensures forall i :: 0 <= i < |rows| && Get(rows[i], c).Num? ==> Get(rows[i], c).x in xs
    ensures forall j :: 0 <= j < |xs| ==> exists i :: 0 <= i < |rows| && Get(rows[i], c) == Num(xs[j])
  {
    if rows == [] then []
    else
      assert forall i :: 1 <= i < |rows| ==> rows[i] == rows[1..][i - 1];
      var head := if Get(rows[0], c).Num? then [Get(rows[0], c).x] else [];
      var rest := NumericValues(rows[1..], c);
      assert forall j :: 0 <= j < |rest| ==> exists i :: 1 <= i < |rows| && Get(rows[i], c) == Num(rest[j]) by {
        forall j | 0 <= j < |rest| ensures exists i :: 1 <= i < |rows| && Get(rows[i], c) == Num(rest[j]) {
          var i' :| 0 <= i' < |rows[1..]| && Get(rows[1..][i'], c) == Num(rest[j]);
          assert Get(rows[i' + 1], c) == Num(rest[j]);
        }
      }
      head + rest
  }

  /** `(df[c].min(), df[c].max())`; `None` when the column holds no number (both are NaN). */
  function ColumnRange(rows: seq<Row>, c: string): (r: Option<(real, real)>)
    ensures r.None? <==> forall i :: 0 <= i < |rows| ==> !Get(rows[i], c).Num?
    ensures r.Some? ==> r.value.0 <= r.value.1
    ensures r.Some? ==> forall i :: 0 <= i < |rows| && Get(rows[i], c).Num? ==>
                          r.value.0 <= Get(rows[i], c).x <= r.value.1
    ensures r.Some? ==> exists i :: 0 <= i < |rows| && Get(rows[i], c) == Num(r.value.0)
    ensures r.Some? ==> exists i :: 0 <= i < |rows| && Get(rows[i], c) == Num(r.value.1)
  {
    var xs := NumericValues(rows, c);
    if xs == [] then None
    else
      var lo, hi := Seqs.Min(xs), Seqs.Max(xs);
      var jl :| 0 <= jl < |xs| && xs[jl] == lo;
      var jh :| 0 <= jh < |xs| && xs[jh] == hi;
      Some((lo, hi))
  }

  /** With the bounds set to the column's own minimum and maximum, the range
      filter keeps every row that has a number in that column, in order. */
  lemma FullRangeKeepsNumericRows(rows: seq<Row>, c: string)
    requires ColumnRange(rows, c).Some?
    ensures FilterRange(rows, c, ColumnRange(rows, c).value.0, ColumnRange(rows, c).value.1)
            == Seqs.Filter((row: Row) => Get(row, c).Num?, rows)
  {
    var (lo, hi) := ColumnRange(rows, c).value;
    Seqs.FilterSameOn((row: Row) => InRange(row, c, lo, hi), (row: Row) => Get(row, c).Num?, rows);
  }

  /** ... and so every row, when every row has a number there. */
  lemma FullRangeKeepsAll(rows: seq<Row>, c: string)
    requires |rows| > 0
    requires forall i :: 0 <= i < |rows| ==> Get(rows[i], c).Num?
    ensures ColumnRange(rows, c).Some?
    ensures FilterRange(rows, c, ColumnRange(rows, c).value.0, ColumnRange(rows, c).value.1) == rows
  {
    FullRangeKeepsNumericRows(rows, c);
    Seqs.FilterKeepsAll((row: Row) => Get(row, c).Num?, rows);
  }

  // ----- membership filters: df[df[c].isin(selection)] -----

  function SelectIn(rows: seq<Row>, c: string, selection: seq<Cell>): (r: seq<Row>)
    ensures forall i :: 0 <= i < |r| ==> r[i] in rows && Get(r[i], c) in selection
    ensures forall i :: 0 <= i < |rows| && Get(rows[i], c) in selection ==> rows[i] in r
  {
    Seqs.Filter((row: Row) => Get(row, c) in selection, rows)
  }

  /** Selecting every distinct value a column holds keeps every row. */
  lemma SelectAllValuesKeepsAll(rows: seq<Row>, c: string, selection: seq<Cell>)
    requires forall i :: 0 <= i < |rows| ==> Get(rows[i], c) in selection
    ensures SelectIn(rows, c, selection) == rows
  {
    Seqs.FilterKeepsAll((row: Row) => Get(row, c) in selection, rows);
  }

  // ----- dropping a column: df.drop(c, axis=1) -----

  function DropColumn(f: Frame, c: string): (r: Frame)
    ensures c !in r.columns
    ensures forall x :: x in r.columns <==> x in f.columns && x != c
    ensures |r.rows| == |f.rows|
    ensures forall i :: 0 <= i < |r.rows| ==> c !in r.rows[i]
    ensures forall i, x :: 0 <= i < |r.rows| && x != c ==> Get(r.rows[i], x) == Get(f.rows[i], x)
  {
    Frame(Seqs.Filter((x: string) => x != c, f.columns),
          seq(|f.rows|, i requires 0 <= i < |f.rows| => f.rows[i] - {c}))
  }

  // ----- group-by sums keyed by a date: df.groupby(k)[v].sum() -----

  /** Grouped totals as (date, total) pairs. */
  type Totals = seq<(int, real)>

  /** pandas lists the groups in ascending key order, one entry per key. */
  ghost predicate StrictlySorted(g: Totals)
  {
    forall i, j :: 0 <= i < j < |g| ==> g[i].0 < g[j].0
  }

  function KeysOf(g: Totals): set<int>
  {
    if g == [] then {} else {g[0].0} + KeysOf(g[1..])
  }

  /** The total recorded for key `k`, zero when there is no such group. */
  function TotalAt(g: Totals, k: int): real
  {
    if g == [] then 0.0 else (if g[0].0 == k then g[0].1 else 0.0) + TotalAt(g[1..], k)
  }

  function GrandTotal(g: Totals): real
  {
    if g == [] then 0.0 else g[0].1 + GrandTotal(g[1..])
  }

  /** Summation skips NaN: a missing or non-numeric cell contributes nothing. */
  function Addend(c: Cell): real
  {
    if c.Num? then c.x else 0.0
  }

  /** Adds `v` to group `k`, opening the group at its sorted place if it is new. */
  function AddTo(g: Totals, k: int, v: real): Totals
  {
    if g == [] then [(k, v)]
    else if k < g[0].0 then [(k, v)] + g
    else if k == g[0].0 then [(k, g[0].1 + v)] + g[1..]
    else [g[0]] + AddTo(g[1..], k, v)
  }

  /** A bound below every key, and below `k`, stays below every key after the addition. */
  lemma {:induction false} AddToAbove(g: Totals, k: int, v: real, b: int)
    requires forall i :: 0 <= i < |g| ==> b < g[i].0
    requires b < k
    ensures forall i :: 0 <= i < |AddTo(g, k, v)| ==> b < AddTo(g, k, v)[i].0
  {
    if g != [] && k > g[0].0 {
      AddToAbove(g[1..], k, v, b);
    }
  }

  lemma {:induction false} AddToSorted(g: Totals, k: int, v: real)
    requires StrictlySorted(g)
    ensures StrictlySorted(AddTo(g, k, v))
  {
    if g != [] && k > g[0].0 {
      AddToSorted(g[1..], k, v);
      AddToAbove(g[1..], k, v, g[0].0);
      var rest := AddTo(g[1..], k, v);
      assert AddTo(g, k, v) == [g[0]] + rest;
      assert forall i :: 1 <= i < |rest| + 1 ==> ([g[0]] + rest)[i] == rest[i - 1];
    }
  }

  lemma {:induction false} AddToKeys(g: Totals, k: int, v: real)
    ensures KeysOf(AddTo(g, k, v)) == KeysOf(g) + {k}
  {
    var r := AddTo(g, k, v);
    if g == [] {
    } else if k < g[0].0 {
      assert r[1..] == g;
    } else if k == g[0].0 {
      assert r[1..] == g[1..];
    } else {
      assert r[1..] == AddTo(g[1..], k, v);
      AddToKeys(g[1..], k, v);
    }
  }

  lemma {:induction false} NotAKey(g: Totals, k: int)
    requires forall i :: 0 <= i < |g| ==> g[i].0 != k
    ensures TotalAt(g, k) == 0.0
  {
    if g != [] {
      NotAKey(g[1..], k);
    }
  }

  lemma {:induction false} AddToTotals(g: Totals, k: int, v: real, t: int)
    requires StrictlySorted(g)
    ensures TotalAt(AddTo(g, k, v), t) == TotalAt(g, t) + (if t == k then v else 0.0)
    ensures GrandTotal(AddTo(g, k, v)) == GrandTotal(g) + v
  {
    var r := AddTo(g, k, v);
    if g == [] {
    } else if k < g[0].0 {
      assert r[1..] == g;
    } else if k == g[0].0 {
      assert r[1..] == g[1..];
      if t == k {
        NotAKey(g[1..], k);
      }
    } else {
      assert r[1..] == AddTo(g[1..], k, v);
      AddToTotals(g[1..], k, v, t);
    }
  }

  /** The dated values of column `v`: one addend for every row whose key cell
      in column `k` is a date (groupby drops rows with a missing key). */
  function DatedAddends(rows: seq<Row>, k: string, v: string): seq<real>
  {
    if rows == [] then []
    else if Get(rows[0], k).Stamp? then [Addend(Get(rows[0], v))] + DatedAddends(rows[1..], k, v)
    else DatedAddends(rows[1..], k, v)
  }

  /** The addends of the rows whose key cell is the date `t`. */
  function AddendsAt(rows: seq<Row>, k: string, v: string, t: int): seq<real>
  {
    if rows == [] then []
    else if Get(rows[0], k) == Stamp(t) then [Addend(Get(rows[0], v))] + AddendsAt(rows[1..], k, v, t)
    else AddendsAt(rows[1..], k, v, t)
  }

  /** The distinct dates in key column `k`. */
  function DatesOf(rows: seq<Row>, k: string): set<int>
  {
    if rows == [] then {}
    else if Get(rows[0], k).Stamp? then {Get(rows[0], k).ns} + DatesOf(rows[1..], k)
    else DatesOf(rows[1..], k)
  }

  /** `rows.groupby(k)[v].sum()`: one group per distinct date, in ascending
      order, each holding the sum of its rows' values. */
  function GroupSumByDate(rows: seq<Row>, k: string, v: string): (r: Totals)
    ensures StrictlySorted(r)
    ensures KeysOf(r) == DatesOf(rows, k)
    ensures forall t :: TotalAt(r, t) == Seqs.Sum(AddendsAt(rows, k, v, t))
    ensures GrandTotal(r) == Seqs.Sum(DatedAddends(rows, k, v))
  {
    if rows == [] then []
    else
      var rest := GroupSumByDate(rows[1..], k, v);
      match Get(rows[0], k)
      case Stamp(t) =>
        var a := Addend(Get(rows[0], v));
        AddToSorted(rest, t, a);
        AddToKeys(rest, t, a);
        Seqs.SumCons(a, DatedAddends(rows[1..], k, v));
        AddToTotals(rest, t, a, t);
        forall t' ensures TotalAt(AddTo(rest, t, a), t') == Seqs.Sum(AddendsAt(rows, k, v, t')) {
          AddToTotals(rest, t, a, t');
          Seqs.SumCons(a, AddendsAt(rows[1..], k, v, t'));
        }
        AddTo(rest, t, a)
      case _ => rest
  }

  // ----- group-by means keyed by a category: df.groupby(k)[v].mean() -----

  function RowsWithKey(rows: seq<Row>, k: string, key: Cell): (r: seq<Row>)
    ensures forall i :: 0 <= i < |r| ==> r[i] in rows && Get(r[i], k) == key
    ensures forall i :: 0 <= i < |rows| && Get(rows[i], k) == key ==> rows[i] in r
  {
    Seqs.Filter((row: Row) => Get(row, k) == key, rows)
  }

  /** One entry per distinct non-missing key (groupby drops the NaN group),
      holding the mean of the group's numbers; `None` is the NaN mean of a
      group without numbers. */
  function GroupMeans(rows: seq<Row>, k: string, v: string): (m: map<Cell, Option<real>>)
    ensures forall i :: 0 <= i < |rows| && Get(rows[i], k) != Missing ==> Get(rows[i], k) in m
    ensures forall key :: key in m ==> key != Missing && |RowsWithKey(rows, k, key)| > 0
    ensures forall key :: key in m ==> m[key] == Seqs.Mean(NumericValues(RowsWithKey(rows, k, key), v))
  {
    map key | key in ColumnCells(rows, k) && key != Missing :: Seqs.Mean(NumericValues(RowsWithKey(rows, k, key), v))
  }
}

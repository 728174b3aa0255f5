/** The well-log analysis page: header information, the curve list, the
    default depth window, the crossplot and correlation inputs. */
module WellLogAnalysis {
  import opened Wrappers
  import opened Frames
  import Seqs
  import DataLoader
  import Visualization

  // ----- header information -----

  /** `f"{item.value} {item.unit}"`. */
  function HeaderText(item: DataLoader.HeaderItem): string
  {
    item.value + " " + item.unit
  }

  /** The text shown for mnemonic `m`: that of the LAST header item carrying it. */
  function HeaderValue(items: seq<DataLoader.HeaderItem>, m: string): (r: Option<string>)
    ensures r.Some? ==> exists i :: 0 <= i < |items| && items[i].mnemonic == m && r.value == HeaderText(items[i])
  {
    if items == [] then None
    else if items[|items| - 1].mnemonic == m then Some(HeaderText(items[|items| - 1]))
    else HeaderValue(items[..|items| - 1], m)
  }

  /** A mnemonic is shown exactly when some item carries it, with the text of
      the last such item: a repeated mnemonic keeps the later value. */
  lemma {:induction false} HeaderValueIsLastItem(items: seq<DataLoader.HeaderItem>, i: nat)
    requires i < |items|
    requires forall j :: i < j < |items| ==> items[j].mnemonic != items[i].mnemonic
    ensures HeaderValue(items, items[i].mnemonic) == Some(HeaderText(items[i]))
  {
    if i < |items| - 1 {
      HeaderValueIsLastItem(items[..|items| - 1], i);
    }
  }

  lemma {:induction false} HeaderValueAbsent(items: seq<DataLoader.HeaderItem>, m: string)
    requires forall j :: 0 <= j < |items| ==> items[j].mnemonic != m
    ensures HeaderValue(items, m).None?
  {
    if items != [] {
      HeaderValueAbsent(items[..|items| - 1], m);
    }
  }

  /** The `for item in las.well` loop filling `well_info`. */
  method WellInfo(items: seq<DataLoader.HeaderItem>) returns (info: map<string, string>)
    ensures forall m :: m in info <==> HeaderValue(items, m).Some?
    ensures forall m :: m in info ==> info[m] == HeaderValue(items, m).value
    ensures forall i :: 0 <= i < |items| ==> items[i].mnemonic in info
  {
    info := map[];
    for k := 0 to |items|
      invariant forall m :: m in info <==> HeaderValue(items[..k], m).Some?
      invariant forall m :: m in info ==> info[m] == HeaderValue(items[..k], m).value
    {
      assert items[..k + 1][..k] == items[..k];
      info := info[items[k].mnemonic := HeaderText(items[k])];
    }
    assert items[..|items|] == items;
    forall i | 0 <= i < |items| ensures items[i].mnemonic in info {
      HeaderPresent(items, i);
    }
  }

  lemma {:induction false} HeaderPresent(items: seq<DataLoader.HeaderItem>, i: nat)
    requires i < |items|
    ensures HeaderValue(items, items[i].mnemonic).Some?
  {
    if i < |items| - 1 && items[|items| - 1].mnemonic != items[i].mnemonic {
      HeaderPresent(items[..|items| - 1], i);
    }
  }

  // ----- curve list -----

  /** The first position of `x` in `s`. */
  function IndexOf(s: seq<string>, x: string): (i: nat)
    requires x in s
    ensures i < |s| && s[i] == x
    ensures forall j :: 0 <= j < i ==> s[j] != x
  {
    if s[0] == x then 0 else 1 + IndexOf(s[1..], x)
  }

  /** `list.remove(x)`: drops the first occurrence only; `None` is the
      `ValueError` raised when `x` is absent, which stops the page. */
  function RemoveFirst(s: seq<string>, x: string): (r: Option<seq<string>>)
    ensures r.None? <==> x !in s
    ensures r.Some? ==> r.value == s[..IndexOf(s, x)] + s[IndexOf(s, x) + 1..]
    ensures r.Some? ==> |r.value| == |s| - 1 && multiset(r.value) == multiset(s) - multiset{x}
  {
    if x in s then
      var i := IndexOf(s, x);
      assert s == s[..i] + [s[i]] + s[i + 1..];
      Some(s[..i] + s[i + 1..])
    else None
  }

  /** `available_curves`: the columns in order, without the first `DEPTH`. */
  function AvailableCurves(df: Frame): (r: Option<seq<string>>)
    ensures r.None? <==> "DEPTH" !in df.columns
    ensures r.Some? ==> forall c :: c in r.value && c != "DEPTH" <==> c in df.columns && c != "DEPTH"
    ensures r.Some? ==> var i := IndexOf(df.columns, "DEPTH");
                         r.value == df.columns[..i] + df.columns[i + 1..]
  {
    var r := RemoveFirst(df.columns, "DEPTH");
    if r.Some? then
      var i := IndexOf(df.columns, "DEPTH");
      assert df.columns == df.columns[..i] + [df.columns[i]] + df.columns[i + 1..];
      r
    else r
  }

  /** A table with a single `DEPTH` column loses exactly that one column. */
  lemma SingleDepthColumnRemoved(df: Frame)
    requires multiset(df.columns)["DEPTH"] == 1
    ensures AvailableCurves(df).Some? && "DEPTH" !in AvailableCurves(df).value
  {
    var r := AvailableCurves(df).value;
    assert multiset(r)["DEPTH"] == 0;
  }

  // ----- widget defaults -----

  /** The slider's default `(min DEPTH, max DEPTH)`; `None` when the column holds no number. */
  function DefaultDepthRange(df: Frame): (r: Option<(real, real)>)
    ensures r.Some? ==> r.value.0 <= r.value.1
    ensures r.Some? <==> exists i :: 0 <= i < |df.rows| && Get(df.rows[i], "DEPTH").Num?
    ensures r.Some? ==> forall i :: 0 <= i < |df.rows| && Get(df.rows[i], "DEPTH").Num? ==>
                          r.value.0 <= Get(df.rows[i], "DEPTH").x <= r.value.1
    ensures r.Some? ==> exists i :: 0 <= i < |df.rows| && Get(df.rows[i], "DEPTH") == Num(r.value.0)
    ensures r.Some? ==> exists i :: 0 <= i < |df.rows| && Get(df.rows[i], "DEPTH") == Num(r.value.1)
  {
    ColumnRange(df.rows, "DEPTH")
  }

  /** `default=[available_curves[0]]`; `None` is the `IndexError` of a log with no curve but depth. */
  function DefaultCurveSelection(curves: seq<string>): (r: Option<seq<string>>)
    ensures r.Some? <==> |curves| > 0
    ensures r.Some? ==> r.value == [curves[0]] && r.value[0] in curves
  {
    if curves == [] then None else Some([curves[0]])
  }

  /** `index=min(1, len(options)-1)`: the second option if there is one, else the first. */
  function DefaultSecondIndex(n: nat): (i: int)
    ensures n >= 1 ==> 0 <= i < n
    ensures n >= 2 ==> i == 1
    ensures n == 1 ==> i == 0
  {
    if 1 <= n - 1 then 1 else n - 1
  }

  /** The colour-by options: `"None"` first, then every curve. */
  function ColorByOptions(curves: seq<string>): (r: seq<string>)
    ensures |r| == |curves| + 1 && r[0] == "None" && r[1..] == curves
  {
    ["None"] + curves
  }

  /** The crossplot colours by the chosen curve unless the choice is `"None"`. */
  function CrossplotColor(choice: string): (r: Option<string>)
    ensures r.None? <==> choice == "None"
    ensures r.Some? ==> r.value == choice
  {
    if choice == "None" then None else Some(choice)
  }

  // ----- crossplot and correlation inputs -----

  /** `filtered_df`: the rows with `lo <= DEPTH <= hi`, in table order. */
  function CrossplotRows(df: Frame, depthRange: (real, real)): (r: seq<Row>)
    ensures forall i :: 0 <= i < |r| ==> r[i] in df.rows && InRange(r[i], "DEPTH", depthRange.0, depthRange.1)
    ensures forall i :: 0 <= i < |df.rows| && InRange(df.rows[i], "DEPTH", depthRange.0, depthRange.1) ==> df.rows[i] in r
  {
    FilterRange(df.rows, "DEPTH", depthRange.0, depthRange.1)
  }

  /** The crossplot and the single-curve plot see the same rows for the same window. */
  lemma CrossplotMatchesCurvePlot(df: Frame, curve: string, depthRange: (real, real))
    ensures Visualization.PlotWellLog(df, curve, Some(depthRange)).data == CrossplotRows(df, depthRange)
  {
  }

  /** With the slider left at its default, the crossplot keeps every row that
      has a depth, in order; with a depth in every row, every row. */
  lemma DefaultWindowKeepsEveryDepth(df: Frame)
    requires DefaultDepthRange(df).Some?
    ensures CrossplotRows(df, DefaultDepthRange(df).value) == Seqs.Filter((row: Row) => Get(row, "DEPTH").Num?, df.rows)
    ensures (forall i :: 0 <= i < |df.rows| ==> Get(df.rows[i], "DEPTH").Num?) ==>
            CrossplotRows(df, DefaultDepthRange(df).value) == df.rows
  {
    FullRangeKeepsNumericRows(df.rows, "DEPTH");
    if forall i :: 0 <= i < |df.rows| ==> Get(df.rows[i], "DEPTH").Num? {
      Seqs.FilterKeepsAll((row: Row) => Get(row, "DEPTH").Num?, df.rows);
    }
  }

  /** The correlation matrix's input: the crossplot rows with `DEPTH` dropped. */
  function CorrelationInput(df: Frame, depthRange: (real, real)): (r: Frame)
    ensures "DEPTH" !in r.columns
    ensures forall c :: c in r.columns <==> c in df.columns && c != "DEPTH"
    ensures |r.rows| == |CrossplotRows(df, depthRange)|
    ensures forall i, c :: 0 <= i < |r.rows| && c != "DEPTH" ==> Get(r.rows[i], c) == Get(CrossplotRows(df, depthRange)[i], c)
  {
    DropColumn(Frame(df.columns, CrossplotRows(df, depthRange)), "DEPTH")
  }
}

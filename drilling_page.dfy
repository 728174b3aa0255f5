/** The drilling KPI page: the KPI columns, the depth and formation filters,
    the depth-based and time-based multi-parameter plots with their cycling
    colour palettes, the crossplot choices and the per-formation averages. */
module DrillingKpis {
  import opened Wrappers
  import opened Frames
  import Seqs
  import WellLogAnalysis
  import opened Visualization

  // ----- columns and gate -----

  /** The columns that are not KPIs. */
  const NonKpiColumns: seq<string> := ["Depth", "Timestamp", "Formation", "Formation_Hardness"]

  predicate IsKpi(c: string) { c !in NonKpiColumns }

  /** `kpi_columns`: every other column, in column order. */
  function KpiColumns(columns: seq<string>): (r: seq<string>)
    ensures forall i :: 0 <= i < |r| ==> r[i] in columns && r[i] !in NonKpiColumns
    ensures forall i :: 0 <= i < |columns| && columns[i] !in NonKpiColumns ==> columns[i] in r
  {
    Seqs.Filter(IsKpi, columns)
  }

  /** The page needs a `Depth` column and at least one KPI column. */
  const MissingColumnsMessage := "The data does not have the required columns (Depth and KPI columns)."

  function DrillingGate(df: Frame): (r: Result<seq<string>>)
    ensures r.Ok? <==> "Depth" in df.columns && |KpiColumns(df.columns)| > 0
    ensures r.Ok? ==> r.value == KpiColumns(df.columns)
  {
    var kpi := KpiColumns(df.columns);
    if "Depth" in df.columns && kpi != [] then Ok(kpi)
    else Err(MissingColumnsMessage)
  }

  // ----- filters -----

  /** `df[(df['Depth'] >= lo) & (df['Depth'] <= hi)]`. */
  function DepthFilter(rows: seq<Row>, depthRange: (real, real)): (r: seq<Row>)
    ensures forall i :: 0 <= i < |r| ==> r[i] in rows && InRange(r[i], "Depth", depthRange.0, depthRange.1)
    ensures forall i :: 0 <= i < |rows| && InRange(rows[i], "Depth", depthRange.0, depthRange.1) ==> rows[i] in r
  {
    FilterRange(rows, "Depth", depthRange.0, depthRange.1)
  }

  /** The formation filter applies only when the table has a `Formation`
      column and the selection is not empty; an empty selection leaves the
      depth-filtered rows as they are. */
  function FormationFilter(rows: seq<Row>, hasFormation: bool, selected: seq<Cell>): (r: seq<Row>)
    ensures !hasFormation || selected == [] ==> r == rows
    ensures hasFormation && selected != [] ==>
              && (forall i :: 0 <= i < |r| ==> r[i] in rows && Get(r[i], "Formation") in selected)
              && (forall i :: 0 <= i < |rows| && Get(rows[i], "Formation") in selected ==> rows[i] in r)
  {
    if hasFormation && selected != [] then SelectIn(rows, "Formation", selected) else rows
  }

  /** The rows the plots see. */
  function FilteredRows(df: Frame, depthRange: (real, real), selected: seq<Cell>): seq<Row>
  {
    FormationFilter(DepthFilter(df.rows, depthRange), "Formation" in df.columns, selected)
  }

  /** With the default slider (the full depth extent) and the default
      formations (every formation in the table) nothing is filtered out when
      every row has a numeric depth. */
  lemma DefaultFiltersKeepAll(df: Frame)
    requires |df.rows| > 0
    requires forall i :: 0 <= i < |df.rows| ==> Get(df.rows[i], "Depth").Num?
    ensures ColumnRange(df.rows, "Depth").Some?
    ensures FilteredRows(df, ColumnRange(df.rows, "Depth").value,
                         Seqs.Unique(ColumnCells(df.rows, "Formation"))) == df.rows
  {
    FullRangeKeepsAll(df.rows, "Depth");
    var sel := Seqs.Unique(ColumnCells(df.rows, "Formation"));
    SelectAllValuesKeepsAll(df.rows, "Formation", sel);
  }

  // ----- plot colours -----

  const DepthPalette: seq<string> := ["green", "blue", "red", "purple", "orange", "brown", "pink", "gray"]
  const TimePalette: seq<string> := ["black", "green", "blue", "red", "purple", "orange", "brown", "pink", "gray"]

  /** `colors[i % len(colors)]`. */
  function CycleColor(palette: seq<string>, i: nat): (c: string)
    requires |palette| > 0
    ensures c in palette
    ensures i < |palette| ==> c == palette[i]
  {
    palette[i % |palette|]
  }

  /** Colours repeat after a full turn of either palette. */
  lemma CycleColorPeriodic(i: nat)
    ensures CycleColor(DepthPalette, i + 8) == CycleColor(DepthPalette, i)
    ensures CycleColor(TimePalette, i + 9) == CycleColor(TimePalette, i)
  {
    assert |DepthPalette| == 8 && |TimePalette| == 9;
    var q8, q9 := i / 8, i / 9;
    assert i + 8 == (q8 + 1) * 8 + i % 8;
    assert i + 9 == (q9 + 1) * 9 + i % 9;
  }

  /** The first eight depth-based parameters get eight different colours. */
  lemma DepthColorsDistinct(i: nat, j: nat)
    requires i < j < |DepthPalette|
    ensures CycleColor(DepthPalette, i) != CycleColor(DepthPalette, j)
  {
  }

  // ----- depth-based and time-based plots -----

  /** The depth-based plot: one subplot column per parameter, parameter on x
      against `Depth`, a shared reversed depth axis, colours cycling through
      the eight-colour palette. The page draws it only for a non-empty
      selection. */
  method DepthBasedPlot(rows: seq<Row>, params: seq<string>) returns (c: Chart)
    requires |params| > 0
    ensures c.data == rows
    ensures c.panels == |params| && c.titles == params && c.sharedY && c.yReversed
    ensures |c.traces| == |params|
    ensures forall i :: 0 <= i < |params| ==>
              c.traces[i] == Trace(params[i], params[i], "Depth", i + 1, Some(CycleColor(DepthPalette, i)))
  {
    var traces: seq<Trace> := [];
    for i := 0 to |params|
      invariant |traces| == i
      invariant forall j :: 0 <= j < i ==>
                  traces[j] == Trace(params[j], params[j], "Depth", j + 1, Some(CycleColor(DepthPalette, j)))
    {
      var color := DepthPalette[i % |DepthPalette|];
      traces := traces + [Trace(params[i], params[i], "Depth", i + 1, Some(color))];
    }
    c := Chart(rows, traces, |params|, params, true, true, None, false);
  }

  /** The time-based plot needs a `Timestamp` column; otherwise the page warns. */
  function TimeBasedGate(df: Frame): (r: Result<()>)
    ensures r.Ok? <==> "Timestamp" in df.columns
  {
    if "Timestamp" in df.columns then Ok(())
    else Err("Time-based visualization requires a 'Timestamp' column in the data.")
  }

  /** The time-based parameter choices, `['Depth'] + kpi_columns`, and the
      default `['Depth', kpi_columns[0]]`. */
  function TimeParameterOptions(kpi: seq<string>): (r: (seq<string>, seq<string>))
    requires |kpi| > 0
    ensures |r.0| == |kpi| + 1 && r.0[0] == "Depth" && r.0[1..] == kpi
    ensures r.1 == ["Depth", kpi[0]]
    ensures forall i :: 0 <= i < |r.1| ==> r.1[i] in r.0
  {
    (["Depth"] + kpi, ["Depth", kpi[0]])
  }

  /** The time-based plot: one line per parameter against `Timestamp` on a
      single panel, unified hover, colours cycling through the nine-colour
      palette that starts with black. */
  method TimeBasedPlot(rows: seq<Row>, params: seq<string>) returns (c: Chart)
    requires |params| > 0
    ensures c.data == rows
    ensures c.panels == 1 && c.hoverUnified && !c.yReversed
    ensures |c.traces| == |params|
    ensures forall i :: 0 <= i < |params| ==>
              c.traces[i] == Trace(params[i], "Timestamp", params[i], 1, Some(CycleColor(TimePalette, i)))
  {
    var traces: seq<Trace> := [];
    for i := 0 to |params|
      invariant |traces| == i
      invariant forall j :: 0 <= j < i ==>
                  traces[j] == Trace(params[j], "Timestamp", params[j], 1, Some(CycleColor(TimePalette, j)))
    {
      var color := TimePalette[i % |TimePalette|];
      traces := traces + [Trace(params[i], "Timestamp", params[i], 1, Some(color))];
    }
    c := Chart(rows, traces, 1, [], false, false, None, true);
  }

  /** With the default selection the depth curve is drawn in black and the
      first KPI in green. */
  lemma TimeDefaultColors(kpi: seq<string>)
    requires |kpi| > 0
    ensures var d := TimeParameterOptions(kpi).1;
            CycleColor(TimePalette, 0) == "black" && CycleColor(TimePalette, 1) == "green" && d[0] == "Depth"
  {
  }

  // ----- the crossplot -----

  /** The crossplot's colour options: `Depth`, `None`, and `Formation` when present. */
  function CrossplotColorOptions(columns: seq<string>): (r: seq<string>)
    ensures |r| == if "Formation" in columns then 3 else 2
    ensures r[..2] == ["Depth", "None"]
    ensures "Formation" in r <==> "Formation" in columns
  {
    ["Depth", "None"] + (if "Formation" in columns then ["Formation"] else [])
  }

  /** The default axes: the first KPI on x and the second (or the first
      again, when there is only one) on y. */
  function DefaultCrossplotAxes(kpi: seq<string>): (r: (string, string))
    requires |kpi| > 0
    ensures r.0 == kpi[0]
    ensures |kpi| >= 2 ==> r.1 == kpi[1]
    ensures |kpi| == 1 ==> r.1 == kpi[0]
  {
    (kpi[0], kpi[WellLogAnalysis.DefaultSecondIndex(|kpi|)])
  }

  /** The crossplot: x against y over the filtered rows, coloured by the
      chosen column unless the choice is `None`. */
  function CrossplotChart(rows: seq<Row>, x: string, y: string, colorChoice: string): (c: Chart)
    ensures c.data == rows && |c.traces| == 1 && c.traces[0].x == x && c.traces[0].y == y
    ensures c.colorBy.None? <==> colorChoice == "None"
    ensures c.colorBy.Some? ==> c.colorBy.value == colorChoice
  {
    var grouping := if colorChoice == "None" then None else Some(colorChoice);
    Chart(rows, [Trace(y + " vs " + x, x, y, 1, None)], 1, [], false, false, grouping, false)
  }

  // ----- the summary -----

  /** The default of the depth-based plot, `kpi_columns[:3]`. */
  function DefaultParameters(kpi: seq<string>): (r: seq<string>)
    ensures |r| == if |kpi| < 3 then |kpi| else 3
    ensures r == kpi[..|r|]
  {
    if |kpi| < 3 then kpi else kpi[..3]
  }

  /** `groupby('Formation')[kpi].mean()`, computed only when the table has a
      `Formation` column: every formation in the rows gets the mean of its
      numeric KPI values. */
  function FormationKpis(rows: seq<Row>, columns: seq<string>, kpi: string): (r: Option<map<Cell, Option<real>>>)
    ensures r.Some? <==> "Formation" in columns
    ensures r.Some? ==> forall i :: 0 <= i < |rows| && Get(rows[i], "Formation") != Missing ==>
                          Get(rows[i], "Formation") in r.value
    ensures r.Some? ==> forall f :: f in r.value ==> f != Missing && |RowsWithKey(rows, "Formation", f)| > 0
    ensures r.Some? ==> forall f :: f in r.value ==>
                          r.value[f] == Seqs.Mean(NumericValues(RowsWithKey(rows, "Formation", f), kpi))
  {
    if "Formation" in columns then Some(GroupMeans(rows, "Formation", kpi)) else None
  }

  /** Each formation's average lies between the smallest and largest KPI
      value measured in that formation. */
  lemma FormationAverageBounded(rows: seq<Row>, columns: seq<string>, kpi: string, f: Cell)
    requires "Formation" in columns
    requires f in FormationKpis(rows, columns, kpi).value
    requires |NumericValues(RowsWithKey(rows, "Formation", f), kpi)| > 0
    ensures var xs := NumericValues(RowsWithKey(rows, "Formation", f), kpi);
            Seqs.Min(xs) <= FormationKpis(rows, columns, kpi).value[f].value <= Seqs.Max(xs)
  {
    Seqs.MeanWithinRange(NumericValues(RowsWithKey(rows, "Formation", f), kpi));
  }
}

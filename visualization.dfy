/** Chart specifications as view-models: which rows are plotted, what is on
    each axis, which subplot column a trace goes in, and the axis orientation.
    Drawing them is the plotting library's business. */
module Visualization {
  import opened Wrappers
  import opened Frames

  /** One plotted series: its legend name, the columns on x and y, the subplot
      column it sits in (1 for a single panel) and an explicit line colour. */
  datatype Trace = Trace(name: string, x: string, y: string, panel: nat, color: Option<string>)

  datatype Chart = Chart(
    data: seq<Row>,           // the rows handed to the plotting call
    traces: seq<Trace>,
    panels: nat,              // subplot columns
    titles: seq<string>,      // subplot titles
    sharedY: bool,
    yReversed: bool,          // depth increases downward
    colorBy: Option<string>,  // plotly express `color=` grouping
    hoverUnified: bool)       // `hovermode='x unified'`

  /** `if depth_range: df = df[(df['DEPTH'] >= lo) & (df['DEPTH'] <= hi)]`. */
  function DepthFiltered(rows: seq<Row>, depthRange: Option<(real, real)>): (r: seq<Row>)
    ensures depthRange.None? ==> r == rows
    ensures depthRange.Some? ==> var (lo, hi) := depthRange.value;
              && (forall i :: 0 <= i < |r| ==> r[i] in rows && InRange(r[i], "DEPTH", lo, hi))
              && (forall i :: 0 <= i < |rows| && InRange(rows[i], "DEPTH", lo, hi) ==> rows[i] in r)
  {
    match depthRange
    case None => rows
    case Some((lo, hi)) => FilterRange(rows, "DEPTH", lo, hi)
  }

  /** `plot_well_log`: one line of the curve against depth, depth axis reversed. */
  function PlotWellLog(df: Frame, curve: string, depthRange: Option<(real, real)>): (c: Chart)
    ensures c.data == DepthFiltered(df.rows, depthRange)
    ensures |c.traces| == 1 && c.traces[0].x == curve && c.traces[0].y == "DEPTH"
    ensures c.yReversed && c.panels == 1 && c.colorBy.None?
  {
    Chart(DepthFiltered(df.rows, depthRange), [Trace(curve, curve, "DEPTH", 1, None)],
          1, [], false, true, None, false)
  }

  /** `plot_multi_well_log`: one subplot column per curve, all sharing a
      reversed depth axis. `make_subplots` refuses zero columns, and the page
      only calls this with a non-empty selection. */
  method PlotMultiWellLog(df: Frame, curves: seq<string>, depthRange: Option<(real, real)>) returns (c: Chart)
    requires |curves| > 0
    ensures c.data == DepthFiltered(df.rows, depthRange)
    ensures c.panels == |curves| && c.titles == curves && c.sharedY && c.yReversed
    ensures |c.traces| == |curves|
    ensures forall i :: 0 <= i < |curves| ==> c.traces[i] == Trace(curves[i], curves[i], "DEPTH", i + 1, None)
  {
    var data := DepthFiltered(df.rows, depthRange);
    var traces: seq<Trace> := [];
    for i := 0 to |curves|
      invariant |traces| == i
      invariant forall j :: 0 <= j < i ==> traces[j] == Trace(curves[j], curves[j], "DEPTH", j + 1, None)
    {
      traces := traces + [Trace(curves[i], curves[i], "DEPTH", i + 1, None)];
    }
    c := Chart(data, traces, |curves|, curves, true, true, None, false);
  }

  /** `plot_production_trend`: production against `Date`; a colour grouping
      only for a given, non-empty column name (an empty name is falsy). */
  function PlotProductionTrend(df: Frame, yColumn: string, colorColumn: Option<string>): (c: Chart)
    ensures c.data == df.rows
    ensures |c.traces| == 1 && c.traces[0].x == "Date" && c.traces[0].y == yColumn
    ensures c.colorBy.Some? <==> colorColumn.Some? && colorColumn.value != ""
    ensures c.colorBy.Some? ==> c.colorBy == colorColumn
    ensures c.hoverUnified && !c.yReversed
  {
    var grouping := if colorColumn.Some? && colorColumn.value != "" then colorColumn else None;
    Chart(df.rows, [Trace(yColumn, "Date", yColumn, 1, None)], 1, [], false, false, grouping, true)
  }

  /** `plot_drilling_kpi`: against depth (reversed) or against time (not reversed). */
  function PlotDrillingKpi(df: Frame, parameter: string, depthBased: bool): (c: Chart)
    ensures c.data == df.rows && |c.traces| == 1
    ensures depthBased ==> c.traces[0].x == parameter && c.traces[0].y == "Depth" && c.yReversed
    ensures !depthBased ==> c.traces[0].x == "Timestamp" && c.traces[0].y == parameter && !c.yReversed
  {
    if depthBased then Chart(df.rows, [Trace(parameter, parameter, "Depth", 1, None)], 1, [], false, true, None, false)
    else Chart(df.rows, [Trace(parameter, "Timestamp", parameter, 1, None)], 1, [], false, false, None, false)
  }

  /** What a metric widget shows: a title, a value label and an optional delta label. */
  datatype Metric = Metric(title: string, shown: string, delta: Option<string>)

  /** `create_kpi_card`: value and delta each followed by a space and the unit
      (`f"{value} {unit}"`), the delta only when one is given. */
  function KpiCard(title: string, value: string, delta: Option<string>, unit: string): (m: Metric)
    ensures m.title == title
    ensures m.shown == value + " " + unit
    ensures m.delta.Some? <==> delta.Some?
    ensures delta.Some? ==> m.delta.value == delta.value + " " + unit
  {
    match delta
    case Some(d) => Metric(title, value + " " + unit, Some(d + " " + unit))
    case None => Metric(title, value + " " + unit, None)
  }

  /** The value can be read back from the label: it is everything before the
      final space and unit. */
  lemma KpiLabelRecoversValue(title: string, value: string, delta: Option<string>, unit: string)
    ensures var m := KpiCard(title, value, delta, unit);
            m.shown[..|value|] == value && m.shown[|value|..] == " " + unit
  {
  }
}

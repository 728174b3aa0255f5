/** The landing page: it loads each missing sample table into the session
    once, then shows four KPI cards and the production summary. */
module Overview {
  import opened Wrappers
  import opened Frames
  import Seqs
  import opened SessionState
  import DataLoader
  import Visualization

  // ----- loading the sample data once -----

  /** One key after `if st.session_state.x is None: ...`: a key that already
      holds a table is kept; an empty key gets the loader's outcome when the
      sample file exists, and stays empty otherwise. */
  function LoadOnce<T>(s: Slot<T>, fileExists: bool, loaded: Option<T>): (r: Slot<T>)
    requires s.Present?
    ensures r.Present?
    ensures s.held.Some? || !fileExists ==> r == s
    ensures s.held.None? && fileExists ==> r.held == loaded
  {
    if s.held.None? && fileExists then Present(loaded) else s
  }

  /** The three loader outcomes, computed from what the readers return. */
  datatype Loaded = Loaded(wellLog: Option<Frame>, production: Option<Frame>, drilling: Option<Frame>)

  function LoadAll(las: Option<DataLoader.LasFile>, productionRead: Option<Frame>, drillingRead: Option<Frame>,
                   parse: DataLoader.DateParser): (l: Loaded)
    ensures l.wellLog == DataLoader.LoadLasFile(las).1
    ensures l.production == DataLoader.LoadProductionData(productionRead, parse)
    ensures l.drilling == DataLoader.LoadDrillingData(drillingRead, parse)
  {
    Loaded(DataLoader.LoadLasFile(las).1, DataLoader.LoadProductionData(productionRead, parse),
           DataLoader.LoadDrillingData(drillingRead, parse))
  }

  /** Which of the three sample files exist under the project root. */
  datatype Found = Found(wellLog: bool, production: bool, drilling: bool)

  function SampleFilesFound(projectRoot: string, fileExists: string -> bool): (f: Found)
    ensures f.wellLog == fileExists(DataLoader.Join(DataLoader.SampleDirectory(projectRoot), DataLoader.WellLogFile))
    ensures f.production == fileExists(DataLoader.Join(DataLoader.SampleDirectory(projectRoot), DataLoader.ProductionFile))
    ensures f.drilling == fileExists(DataLoader.Join(DataLoader.SampleDirectory(projectRoot), DataLoader.DrillingFile))
  {
    Found(fileExists(DataLoader.SampleDataPath(projectRoot, "well_log").value),
          fileExists(DataLoader.SampleDataPath(projectRoot, "production").value),
          fileExists(DataLoader.SampleDataPath(projectRoot, "drilling").value))
  }

  predicate TablesPresent(s: Snapshot)
  {
    s.wellLogData.Present? && s.productionData.Present? && s.drillingData.Present?
  }

  /** The record after the three loading blocks; the two selections are untouched. */
  function AfterSampleLoad(s: Snapshot, found: Found, loaded: Loaded): (r: Snapshot)
    requires TablesPresent(s)
    ensures TablesPresent(r)
    ensures r.selectedWell == s.selectedWell && r.depthRange == s.depthRange
  {
    s.(wellLogData := LoadOnce(s.wellLogData, found.wellLog, loaded.wellLog),
       productionData := LoadOnce(s.productionData, found.production, loaded.production),
       drillingData := LoadOnce(s.drillingData, found.drilling, loaded.drilling))
  }

  /** A table already in the session is never replaced by the sample. */
  lemma LoadedTablesKept(s: Snapshot, found: Found, loaded: Loaded)
    requires TablesPresent(s)
    ensures s.wellLogData.held.Some? ==> AfterSampleLoad(s, found, loaded).wellLogData == s.wellLogData
    ensures s.productionData.held.Some? ==> AfterSampleLoad(s, found, loaded).productionData == s.productionData
    ensures s.drillingData.held.Some? ==> AfterSampleLoad(s, found, loaded).drillingData == s.drillingData
  {
  }

  /** Re-running the page with the same files and the same reader outcomes
      changes nothing more: a table that loaded stays, and one that failed to
      load fails again to the same empty value. */
  lemma SampleLoadIdempotent(s: Snapshot, found: Found, loaded: Loaded)
    requires TablesPresent(s)
    ensures AfterSampleLoad(AfterSampleLoad(s, found, loaded), found, loaded) == AfterSampleLoad(s, found, loaded)
  {
  }

  /** In a fresh, initialised session each table is exactly what its loader
      produced when the sample file exists. */
  lemma FreshSessionGetsSamples(found: Found, loaded: Loaded)
    ensures var s := AfterSampleLoad(Initialized(Snapshot(Absent, Absent, Absent, Absent, Absent)), found, loaded);
            && (found.wellLog ==> s.wellLogData == Present(loaded.wellLog))
            && (!found.wellLog ==> s.wellLogData == Present(None))
            && (found.production ==> s.productionData == Present(loaded.production))
            && (!found.production ==> s.productionData == Present(None))
            && (found.drilling ==> s.drillingData == Present(loaded.drilling))
            && (!found.drilling ==> s.drillingData == Present(None))
  {
    InitializedFromEmpty();
  }

  /** The page's start: initialise the session, then fill each empty table
      from the sample files that exist. */
  method StartPage(store: SessionStore, projectRoot: string, fileExists: string -> bool,
                   las: Option<DataLoader.LasFile>, productionRead: Option<Frame>, drillingRead: Option<Frame>,
                   parse: DataLoader.DateParser)
    modifies store
    ensures store.State() == AfterSampleLoad(Initialized(old(store.State())),
                                             SampleFilesFound(projectRoot, fileExists),
                                             LoadAll(las, productionRead, drillingRead, parse))
  {
    store.Initialize();
    if store.wellLogData.held.None? {
      var path := DataLoader.SampleDataPath(projectRoot, "well_log").value;
      if fileExists(path) {
        var (_, wellLogDf) := DataLoader.LoadLasFile(las);
        store.SetWellLogData(wellLogDf);
      }
    }
    if store.productionData.held.None? {
      var path := DataLoader.SampleDataPath(projectRoot, "production").value;
      if fileExists(path) {
        store.SetProductionData(DataLoader.LoadProductionData(productionRead, parse));
      }
    }
    if store.drillingData.held.None? {
      var path := DataLoader.SampleDataPath(projectRoot, "drilling").value;
      if fileExists(path) {
        store.SetDrillingData(DataLoader.LoadDrillingData(drillingRead, parse));
      }
    }
  }

  // ----- the KPI cards -----

  /** What a card shows: no table (`N/A`), a failed column lookup (the page
      stops with a `KeyError`), a reduction over no numbers (`nan`), a number
      or a count. */
  datatype Reading = NotAvailable | MissingColumn(column: string) | Undefined | Value(x: real) | Count(n: nat)

  /** `max(DEPTH) - min(DEPTH)` of the well log. */
  function DepthRangeKpi(data: Option<Frame>): (r: Reading)
    ensures data.None? <==> r.NotAvailable?
    ensures r.MissingColumn? <==> data.Some? && "DEPTH" !in data.value.columns
    ensures r.Value? ==> r.x >= 0.0
    ensures r.Value? ==> ColumnRange(data.value.rows, "DEPTH").Some?
                         && r.x == ColumnRange(data.value.rows, "DEPTH").value.1 - ColumnRange(data.value.rows, "DEPTH").value.0
    ensures data.Some? && "DEPTH" in data.value.columns ==> (r.Undefined? <==> ColumnRange(data.value.rows, "DEPTH").None?)
  {
    match data
    case None => NotAvailable
    case Some(df) =>
      if "DEPTH" !in df.columns then MissingColumn("DEPTH")
      else match ColumnRange(df.rows, "DEPTH")
        case None => Undefined
        case Some((lo, hi)) => Value(hi - lo)
  }

  /** Every depth of the log lies within the card's range of the smallest depth. */
  lemma DepthRangeCoversLog(data: Option<Frame>, i: nat)
    requires DepthRangeKpi(data).Value?
    requires i < |data.value.rows| && Get(data.value.rows[i], "DEPTH").Num?
    ensures var lo := ColumnRange(data.value.rows, "DEPTH").value.0;
            lo <= Get(data.value.rows[i], "DEPTH").x <= lo + DepthRangeKpi(data).x
  {
  }

  /** `Oil_Production_bbl.sum()`: missing values are skipped, so a column
      with no number sums to zero. */
  function TotalOilKpi(data: Option<Frame>): (r: Reading)
    ensures data.None? <==> r.NotAvailable?
    ensures r.MissingColumn? <==> data.Some? && "Oil_Production_bbl" !in data.value.columns
    ensures r.Value? <==> data.Some? && "Oil_Production_bbl" in data.value.columns
    ensures r.Value? ==> r.x == Seqs.Sum(NumericValues(data.value.rows, "Oil_Production_bbl"))
  {
    match data
    case None => NotAvailable
    case Some(df) =>
      if "Oil_Production_bbl" !in df.columns then MissingColumn("Oil_Production_bbl")
      else Value(Seqs.Sum(NumericValues(df.rows, "Oil_Production_bbl")))
  }

  /** `ROP.mean()`: undefined when the column holds no number. */
  function AverageRopKpi(data: Option<Frame>): (r: Reading)
    ensures data.None? <==> r.NotAvailable?
    ensures r.MissingColumn? <==> data.Some? && "ROP" !in data.value.columns
    ensures r.Undefined? <==> data.Some? && "ROP" in data.value.columns && |NumericValues(data.value.rows, "ROP")| == 0
    ensures r.Value? ==> Seqs.Mean(NumericValues(data.value.rows, "ROP")) == Some(r.x)
  {
    match data
    case None => NotAvailable
    case Some(df) =>
      if "ROP" !in df.columns then MissingColumn("ROP")
      else match Seqs.Mean(NumericValues(df.rows, "ROP"))
        case None => Undefined
        case Some(m) => Value(m)
  }

  /** The average rate of penetration lies between the slowest and the fastest one recorded. */
  lemma AverageRopBounded(data: Option<Frame>)
    requires AverageRopKpi(data).Value?
    ensures var xs := NumericValues(data.value.rows, "ROP");
            |xs| > 0 && Seqs.Min(xs) <= AverageRopKpi(data).x <= Seqs.Max(xs)
  {
    Seqs.MeanWithinRange(NumericValues(data.value.rows, "ROP"));
  }

  /** The distinct cells of a column, missing values dropped (`nunique`). */
  function Distinct(cells: seq<Cell>): (r: seq<Cell>)
    ensures forall i :: 0 <= i < |r| ==> r[i] in cells && r[i] != Missing
    ensures forall i :: 0 <= i < |cells| && cells[i] != Missing ==> cells[i] in r
    ensures forall i, j :: 0 <= i < j < |r| ==> r[i] != r[j]
  {
    Seqs.Unique(Seqs.Filter((c: Cell) => c != Missing, cells))
  }

  /** `Well_ID.nunique()`, shown only when the table has a `Well_ID` column. */
  function WellCountKpi(data: Option<Frame>): (r: Reading)
    ensures r.NotAvailable? <==> data.None? || "Well_ID" !in data.value.columns
    ensures r.NotAvailable? || r.Count?
    ensures r.Count? ==> r.n == |Distinct(ColumnCells(data.value.rows, "Well_ID"))|
  {
    if data.Some? && "Well_ID" in data.value.columns then Count(|Distinct(ColumnCells(data.value.rows, "Well_ID"))|)
    else NotAvailable
  }

  /** A sequence without repeats, drawn from `s`, is no longer than `s`. */
  lemma {:induction false} DistinctNoLonger(r: seq<Cell>, s: seq<Cell>)
    requires forall i :: 0 <= i < |r| ==> r[i] in s
    requires forall i, j :: 0 <= i < j < |r| ==> r[i] != r[j]
    ensures |r| <= |s|
  {
    var rs := set i | 0 <= i < |r| :: r[i];
    var ss := set i | 0 <= i < |s| :: s[i];
    assert rs <= ss;
    DistinctCardinality(r);
    SeqSetCardinality(s);
    SubsetCardinality(rs, ss);
  }

  lemma {:induction false} SubsetCardinality(a: set<Cell>, b: set<Cell>)
    requires a <= b
    ensures |a| <= |b|
    decreases a
  {
    if a != {} {
      var x :| x in a;
      SubsetCardinality(a - {x}, b - {x});
    }
  }

  lemma {:induction false} DistinctCardinality(r: seq<Cell>)
    requires forall i, j :: 0 <= i < j < |r| ==> r[i] != r[j]
    ensures |set i | 0 <= i < |r| :: r[i]| == |r|
  {
    if r != [] {
      var last := |r| - 1;
      var init := r[..last];
      DistinctCardinality(init);
      assert (set i | 0 <= i < |r| :: r[i]) == (set i | 0 <= i < |init| :: init[i]) + {r[last]};
      assert r[last] !in (set i | 0 <= i < |init| :: init[i]);
    }
  }

  lemma {:induction false} SeqSetCardinality(s: seq<Cell>)
    ensures |set i | 0 <= i < |s| :: s[i]| <= |s|
  {
    if s != [] {
      var last := |s| - 1;
      var init := s[..last];
      SeqSetCardinality(init);
      assert (set i | 0 <= i < |s| :: s[i]) == (set i | 0 <= i < |init| :: init[i]) + {s[last]};
    }
  }

  /** The well count is at most the number of rows, and at least one when
      some row names a well. */
  lemma WellCountBounds(data: Option<Frame>)
    requires WellCountKpi(data).Count?
    ensures WellCountKpi(data).n <= |data.value.rows|
    ensures (exists i :: 0 <= i < |data.value.rows| && Get(data.value.rows[i], "Well_ID") != Missing)
            ==> WellCountKpi(data).n >= 1
  {
    var cells := ColumnCells(data.value.rows, "Well_ID");
    DistinctNoLonger(Distinct(cells), cells);
    if exists i :: 0 <= i < |data.value.rows| && Get(data.value.rows[i], "Well_ID") != Missing {
      var i :| 0 <= i < |data.value.rows| && Get(data.value.rows[i], "Well_ID") != Missing;
      assert cells[i] in Distinct(cells);
    }
  }

  /** `str(n)` of a count. */
  function NatText(n: nat): (s: string)
    ensures |s| > 0 && forall i :: 0 <= i < |s| ==> '0' <= s[i] <= '9'
    decreases n
  {
    if n < 10 then [('0' as int + n) as char]
    else NatText(n / 10) + [('0' as int + n % 10) as char]
  }

  /** Reading decimal digits back. */
  function DigitsValue(s: string): nat
  {
    if s == [] then 0
    else
      var d := s[|s| - 1] as int - '0' as int;
      DigitsValue(s[..|s| - 1]) * 10 + (if 0 <= d then d else 0)
  }

  /** The count's text reads back as the count. */
  lemma {:induction false} NatTextRoundTrip(n: nat)
    ensures DigitsValue(NatText(n)) == n
    decreases n
  {
    if n >= 10 {
      NatTextRoundTrip(n / 10);
      var s := NatText(n);
      assert s[..|s| - 1] == NatText(n / 10);
    }
  }

  /** The card for a reading: `N/A` without data, `nan` for an undefined
      reduction, the formatted number or the count otherwise; `None` where the
      page stops on a missing column. */
  function OverviewCard(title: string, r: Reading, unit: string, format: real -> string): (m: Option<Visualization.Metric>)
    ensures m.None? <==> r.MissingColumn?
    ensures m.Some? ==> m.value.title == title && m.value.delta.None?
    ensures r.NotAvailable? ==> m.value.shown == "N/A " + unit
    ensures r.Undefined? ==> m.value.shown == "nan " + unit
    ensures r.Value? ==> m.value.shown == format(r.x) + " " + unit
    ensures r.Count? ==> m.value.shown == NatText(r.n) + " " + unit
  {
    match r
    case NotAvailable => Some(Visualization.KpiCard(title, "N/A", None, unit))
    case MissingColumn(_) => None
    case Undefined => Some(Visualization.KpiCard(title, "nan", None, unit))
    case Value(x) => Some(Visualization.KpiCard(title, format(x), None, unit))
    case Count(n) => Some(Visualization.KpiCard(title, NatText(n), None, unit))
  }

  // ----- the production summary -----

  /** The daily series behind the monthly chart: summed over wells by date
      when there is a `Well_ID` column, the `(Date, Oil_Production_bbl)` rows
      as they are otherwise. */
  datatype Summary = NotShown | ByDate(totals: Totals) | AsIs(rows: seq<Row>)

  function ProductionSummary(df: Frame): (r: Summary)
    ensures r.NotShown? <==> "Date" !in df.columns || "Oil_Production_bbl" !in df.columns
    ensures r.ByDate? <==> "Date" in df.columns && "Oil_Production_bbl" in df.columns && "Well_ID" in df.columns
    ensures r.ByDate? ==> StrictlySorted(r.totals) && KeysOf(r.totals) == DatesOf(df.rows, "Date")
    ensures r.ByDate? ==> GrandTotal(r.totals) == Seqs.Sum(DatedAddends(df.rows, "Date", "Oil_Production_bbl"))
    ensures r.ByDate? ==> forall t :: TotalAt(r.totals, t) == Seqs.Sum(AddendsAt(df.rows, "Date", "Oil_Production_bbl", t))
    ensures r.AsIs? ==> |r.rows| == |df.rows| && forall i :: 0 <= i < |df.rows| ==>
              r.rows[i].Keys <= {"Date", "Oil_Production_bbl"} &&
              Get(r.rows[i], "Date") == Get(df.rows[i], "Date") &&
              Get(r.rows[i], "Oil_Production_bbl") == Get(df.rows[i], "Oil_Production_bbl")
  {
    if "Date" !in df.columns || "Oil_Production_bbl" !in df.columns then NotShown
    else if "Well_ID" in df.columns then ByDate(GroupSumByDate(df.rows, "Date", "Oil_Production_bbl"))
    else AsIs(seq(|df.rows|, i requires 0 <= i < |df.rows| =>
                    map c | c in df.rows[i] && (c == "Date" || c == "Oil_Production_bbl") :: df.rows[i][c]))
  }

  /** When every row is dated, summing by date loses no oil. */
  lemma {:induction false} DatedAddendsAreTheTotal(rows: seq<Row>, v: string)
    requires forall i :: 0 <= i < |rows| ==> Get(rows[i], "Date").Stamp?
    ensures Seqs.Sum(DatedAddends(rows, "Date", v)) == Seqs.Sum(NumericValues(rows, v))
  {
    if rows != [] {
      DatedAddendsAreTheTotal(rows[1..], v);
      var c := Get(rows[0], v);
      Seqs.SumCons(Addend(c), DatedAddends(rows[1..], "Date", v));
      var head := if c.Num? then [c.x] else [];
      Seqs.SumAppend(head, NumericValues(rows[1..], v));
    }
  }

  /** The summary chart and the total-oil card agree: when every row is
      dated, the daily totals add up to the card's value. */
  lemma SummaryMatchesTotalCard(df: Frame)
    requires ProductionSummary(df).ByDate?
    requires forall i :: 0 <= i < |df.rows| ==> Get(df.rows[i], "Date").Stamp?
    ensures TotalOilKpi(Some(df)) == Value(GrandTotal(ProductionSummary(df).totals))
  {
    DatedAddendsAreTheTotal(df.rows, "Oil_Production_bbl");
  }

  /** The ROP-against-depth summary plot: ROP on x, depth on y, depth reversed,
      drawn only when both columns exist. */
  function DrillingSummaryChart(df: Frame): (c: Option<Visualization.Chart>)
    ensures c.Some? <==> "Depth" in df.columns && "ROP" in df.columns
    ensures c.Some? ==> (c.value.data == df.rows && c.value.yReversed &&
                         |c.value.traces| == 1 && c.value.traces[0].x == "ROP" && c.value.traces[0].y == "Depth")
  {
    if "Depth" in df.columns && "ROP" in df.columns
    then Some(Visualization.PlotDrillingKpi(df, "ROP", true))
    else None
  }
}

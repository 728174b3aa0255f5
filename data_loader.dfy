/** Loading the three kinds of table. Parsing (the LAS reader, the CSV reader,
    date-time parsing) is outside the model: its outcome is an input, `None`
    standing for a raised exception. */
module DataLoader {
  import opened Wrappers
  import opened Frames

  // ----- sample file locations -----

  /** `os.path.join(a, b)` for a relative `b`: a separator is added unless `a`
      is empty or already ends with one. */
  function Join(a: string, b: string): (p: string)
    ensures |a| + |b| <= |p| <= |a| + |b| + 1
    ensures p[..|a|] == a
    ensures p[|p| - |b|..] == b
    ensures |p| == |a| + |b| + 1 ==> p[|a|] == '/'
  {
    if a == [] || a[|a| - 1] == '/' then a + b else a + "/" + b
  }

  const WellLogFile := "synthetic_well.las"
  const ProductionFile := "production_data.csv"
  const DrillingFile := "drilling_data.csv"

  /** The `data` directory beside the `utils` package; `projectRoot` is
      `dirname(dirname(__file__))`. */
  function SampleDirectory(projectRoot: string): string
  {
    Join(projectRoot, "data")
  }

  /** `get_sample_data_path`: one file per known kind, `None` for any other. */
  function SampleDataPath(projectRoot: string, dataType: string): (p: Option<string>)
    ensures dataType == "well_log" ==> p == Some(Join(SampleDirectory(projectRoot), WellLogFile))
    ensures dataType == "production" ==> p == Some(Join(SampleDirectory(projectRoot), ProductionFile))
    ensures dataType == "drilling" ==> p == Some(Join(SampleDirectory(projectRoot), DrillingFile))
    ensures p.None? <==> dataType != "well_log" && dataType != "production" && dataType != "drilling"
  {
    var baseDir := SampleDirectory(projectRoot);
    if dataType == "well_log" then Some(Join(baseDir, WellLogFile))
    else if dataType == "production" then Some(Join(baseDir, ProductionFile))
    else if dataType == "drilling" then Some(Join(baseDir, DrillingFile))
    else None
  }

  /** The three sample files are different files in the same directory. */
  lemma SamplePathsDistinct(projectRoot: string)
    ensures var d := SampleDirectory(projectRoot);
            && SampleDataPath(projectRoot, "well_log").value[..|d|] == d
            && SampleDataPath(projectRoot, "production").value[..|d|] == d
            && SampleDataPath(projectRoot, "drilling").value[..|d|] == d
    ensures SampleDataPath(projectRoot, "well_log") != SampleDataPath(projectRoot, "production")
    ensures SampleDataPath(projectRoot, "well_log") != SampleDataPath(projectRoot, "drilling")
    ensures SampleDataPath(projectRoot, "production") != SampleDataPath(projectRoot, "drilling")
  {
    var d := SampleDirectory(projectRoot);
    var w, p, r := Join(d, WellLogFile), Join(d, ProductionFile), Join(d, DrillingFile);
    var sep := if d == [] || d[|d| - 1] == '/' then 0 else 1;
    assert |w| == |d| + sep + 18 && |p| == |d| + sep + 19 && |r| == |d| + sep + 17;
  }

  // ----- well logs -----

  /** One header line of the `~Well` section of a LAS file. */
  datatype HeaderItem = HeaderItem(mnemonic: string, value: string, unit: string)

  /** The table the LAS reader hands over (`las.df()`): the depth values form
      the index, which may carry a name, and each row pairs its index value
      with its curve values. */
  datatype LogTable = LogTable(indexName: Option<string>, columns: seq<string>, rows: seq<(Cell, Row)>)

  datatype LasFile = LasFile(well: seq<HeaderItem>, table: LogTable)

  /** The column `reset_index` creates: the index's name; for an unnamed
      index `index`, or `level_0` when `index` is already a column. */
  function IndexColumn(t: LogTable): (name: string)
    ensures t.indexName.Some? ==> name == t.indexName.value
    ensures t.indexName.None? ==> name == (if "index" in t.columns then "level_0" else "index")
  {
    match t.indexName
    case Some(n) => n
    case None => if "index" in t.columns then "level_0" else "index"
  }

  /** `reset_index` raises when the column it would insert already exists. */
  predicate CanReset(t: LogTable)
  {
    IndexColumn(t) !in t.columns
  }

  function RenameColumn(c: string, from: string, to: string): string
  {
    if c == from then to else c
  }

  /** Moves a row's value from key `from` to key `to`. */
  function RenameKey(row: Row, from: string, to: string): (r: Row)
    ensures Get(r, to) == (if from in row then row[from] else Get(row, to))
    ensures forall c :: c != from && c != to ==> Get(r, c) == Get(row, c)
  {
    if from in row then (row - {from})[to := row[from]] else row
  }

  /** `df.reset_index()` then `df.rename(columns={'index': 'DEPTH'})`. */
  function ResetAndRename(t: LogTable): (f: Frame)
    requires CanReset(t)
    ensures |f.columns| == |t.columns| + 1 && |f.rows| == |t.rows|
    ensures f.columns[0] == RenameColumn(IndexColumn(t), "index", "DEPTH")
    ensures forall i :: 0 <= i < |t.columns| ==> f.columns[i + 1] == RenameColumn(t.columns[i], "index", "DEPTH")
    ensures forall i :: 0 <= i < |t.rows| && !(IndexColumn(t) == "DEPTH" && "index" in t.rows[i].1) ==>
              Get(f.rows[i], RenameColumn(IndexColumn(t), "index", "DEPTH")) == t.rows[i].0
  {
    var name := IndexColumn(t);
    Frame([RenameColumn(name, "index", "DEPTH")] + seq(|t.columns|, i requires 0 <= i < |t.columns| => RenameColumn(t.columns[i], "index", "DEPTH")),
          seq(|t.rows|, i requires 0 <= i < |t.rows| => RenameKey(t.rows[i].1[name := t.rows[i].0], "index", "DEPTH")))
  }

  /** `load_las_file`: the reader's object and the flattened table, or
      `(None, None)` when reading or `reset_index` raised. */
  function LoadLasFile(read: Option<LasFile>): (r: (Option<LasFile>, Option<Frame>))
    ensures r.1.Some? <==> read.Some? && CanReset(read.value.table)
    ensures r.0 == (if r.1.Some? then read else None)
    ensures r.1.Some? ==> r.1.value == ResetAndRename(read.value.table)
  {
    match read
    case None => (None, None)
    case Some(las) => if CanReset(las.table) then (Some(las), Some(ResetAndRename(las.table))) else (None, None)
  }

  /** An unnamed depth index becomes the leading `DEPTH` column, row by row. */
  lemma UnnamedIndexBecomesDepth(las: LasFile)
    requires las.table.indexName.None? && "index" !in las.table.columns
    ensures LoadLasFile(Some(las)).1.Some?
    ensures var f := LoadLasFile(Some(las)).1.value;
            && f.columns[0] == "DEPTH"
            && |f.rows| == |las.table.rows|
            && forall i :: 0 <= i < |f.rows| ==> Get(f.rows[i], "DEPTH") == las.table.rows[i].0
  {
  }

  /** Beside a curve already called `index`, an unnamed index is inserted as
      `level_0`, and the rename turns that curve, not the index, into `DEPTH`. */
  lemma UnnamedIndexBesideIndexCurve(las: LasFile)
    requires las.table.indexName.None? && "index" in las.table.columns && "level_0" !in las.table.columns
    ensures LoadLasFile(Some(las)).1.Some?
    ensures var f := LoadLasFile(Some(las)).1.value;
            && f.columns[0] == "level_0"
            && "DEPTH" in f.columns
            && (forall i :: 0 <= i < |f.rows| ==> Get(f.rows[i], "level_0") == las.table.rows[i].0)
            && (forall i :: 0 <= i < |f.rows| && "index" in las.table.rows[i].1 ==>
                  Get(f.rows[i], "DEPTH") == las.table.rows[i].1["index"])
  {
    var f := LoadLasFile(Some(las)).1.value;
    var t := las.table;
    var k :| 0 <= k < |t.columns| && t.columns[k] == "index";
    assert f.columns[k + 1] == "DEPTH";
    forall i | 0 <= i < |f.rows| && "index" in t.rows[i].1
      ensures Get(f.rows[i], "DEPTH") == t.rows[i].1["index"]
    {
      var row := t.rows[i].1["level_0" := t.rows[i].0];
      assert f.rows[i] == RenameKey(row, "index", "DEPTH");
    }
  }

  /** Two columns the index would collide with: loading fails as a whole. */
  lemma IndexNameClashFails(las: LasFile)
    requires las.table.indexName.Some? && las.table.indexName.value in las.table.columns
    ensures LoadLasFile(Some(las)) == (None, None)
  {
  }

  // ----- production and drilling tables -----

  /** The format the drilling loader passes for `Timestamp`. */
  const TimestampFormat := "%Y-%m-%d %H:%M:%S.%f"

  /** `pd.to_datetime`, with an optional explicit format: a parsed cell, or
      `None` when the cell cannot be parsed and the call raises. */
  type DateParser = (Option<string>, Cell) -> Option<Cell>

  predicate ColumnParses(parse: DateParser, format: Option<string>, rows: seq<Row>, c: string)
  {
    forall i :: 0 <= i < |rows| ==> parse(format, Get(rows[i], c)).Some?
  }

  /** `df[c] = pd.to_datetime(df[c], ...)`: every cell of column `c` replaced
      by its parse, or `None` when one cell fails. */
  function ConvertColumn(f: Frame, c: string, parse: DateParser, format: Option<string>): (r: Option<Frame>)
    ensures r.Some? <==> ColumnParses(parse, format, f.rows, c)
    ensures r.Some? ==> r.value.columns == f.columns && |r.value.rows| == |f.rows|
    ensures r.Some? ==> forall i :: 0 <= i < |f.rows| ==>
              r.value.rows[i] == f.rows[i][c := parse(format, Get(f.rows[i], c)).value]
  {
    if ColumnParses(parse, format, f.rows, c) then
      Some(Frame(f.columns, seq(|f.rows|, i requires 0 <= i < |f.rows| => f.rows[i][c := parse(format, Get(f.rows[i], c)).value])))
    else None
  }

  /** Converts column `c` when the table has it; otherwise the table passes through. */
  function ConvertIfPresent(read: Option<Frame>, c: string, parse: DateParser, format: Option<string>): (r: Option<Frame>)
    ensures read.None? ==> r.None?
    ensures read.Some? && c !in read.value.columns ==> r == read
    ensures read.Some? && c in read.value.columns ==> r == ConvertColumn(read.value, c, parse, format)
  {
    match read
    case None => None
    case Some(df) => if c in df.columns then ConvertColumn(df, c, parse, format) else Some(df)
  }

  /** `load_production_data`: `Date` is parsed with the reader's inferred format. */
  function LoadProductionData(read: Option<Frame>, parse: DateParser): (r: Option<Frame>)
    ensures r.Some? <==> read.Some? && ("Date" in read.value.columns ==> ColumnParses(parse, None, read.value.rows, "Date"))
    ensures read.Some? && "Date" !in read.value.columns ==> r == read
    ensures r.Some? ==> r.value.columns == read.value.columns && |r.value.rows| == |read.value.rows|
    ensures r.Some? && "Date" in read.value.columns ==> forall i :: 0 <= i < |r.value.rows| ==>
              Get(r.value.rows[i], "Date") == parse(None, Get(read.value.rows[i], "Date")).value
  {
    ConvertIfPresent(read, "Date", parse, None)
  }

  /** `load_drilling_data`: `Timestamp` is parsed with the fixed format. */
  function LoadDrillingData(read: Option<Frame>, parse: DateParser): (r: Option<Frame>)
    ensures r.Some? <==> read.Some? && ("Timestamp" in read.value.columns ==> ColumnParses(parse, Some(TimestampFormat), read.value.rows, "Timestamp"))
    ensures read.Some? && "Timestamp" !in read.value.columns ==> r == read
    ensures r.Some? ==> r.value.columns == read.value.columns && |r.value.rows| == |read.value.rows|
    ensures r.Some? && "Timestamp" in read.value.columns ==> forall i :: 0 <= i < |r.value.rows| ==>
              Get(r.value.rows[i], "Timestamp") == parse(Some(TimestampFormat), Get(read.value.rows[i], "Timestamp")).value
  {
    ConvertIfPresent(read, "Timestamp", parse, Some(TimestampFormat))
  }

  /** Only the converted column changes: every other cell is what the CSV reader produced. */
  lemma ConversionTouchesOneColumn(read: Frame, c: string, parse: DateParser, format: Option<string>, i: nat, other: string)
    requires ConvertColumn(read, c, parse, format).Some?
    requires i < |read.rows| && other != c
    ensures Get(ConvertColumn(read, c, parse, format).value.rows[i], other) == Get(read.rows[i], other)
  {
  }
}

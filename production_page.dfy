/** The production analysis page: which columns count as production, the
    gates in front of the analysis, the well filter, the per-well resampling
    loop, the moving average and the preparation of the decline-curve fit. */
module ProductionAnalysis {
  import opened Wrappers
  import opened Frames
  import Seqs

  // ----- column classification -----

  /** `str.lower()` on ASCII letters; other characters are left as they are. */
  function Lower(s: string): (r: string)
    ensures |r| == |s|
    ensures forall i :: 0 <= i < |s| ==> r[i] == (if 'A' <= s[i] <= 'Z' then (s[i] as int + 32) as char else s[i])
  {
    seq(|s|, i requires 0 <= i < |s| => if 'A' <= s[i] <= 'Z' then (s[i] as int + 32) as char else s[i])
  }

  /** Python's `needle in s` on strings. */
  predicate ContainsSub(s: string, needle: string)
    decreases |s|
  {
    |needle| <= |s| && (s[..|needle|] == needle || ContainsSub(s[1..], needle))
  }

  /** `needle` occurs in `s` starting at position `i`. */
  predicate OccursAt(s: string, needle: string, i: int)
  {
    0 <= i && i + |needle| <= |s| && s[i..i + |needle|] == needle
  }

  /** `ContainsSub` finds an occurrence exactly when there is one. */
  lemma {:induction false} ContainsSubIffOccurs(s: string, needle: string)
    ensures ContainsSub(s, needle) <==> exists i :: OccursAt(s, needle, i)
    decreases |s|
  {
    var k := |needle|;
    if k > |s| {
      assert forall i :: !OccursAt(s, needle, i);
    } else if s[..k] == needle {
      assert OccursAt(s, needle, 0);
    } else {
      ContainsSubIffOccurs(s[1..], needle);
      forall j | 0 <= j && j + k <= |s| - 1
        ensures OccursAt(s[1..], needle, j) <==> OccursAt(s, needle, j + 1)
      {
        assert s[1..][j..j + k] == s[j + 1..j + 1 + k];
      }
      if exists i :: OccursAt(s, needle, i) {
        var i :| OccursAt(s, needle, i);
        assert i != 0;
        assert OccursAt(s[1..], needle, i - 1);
      }
      if ContainsSub(s[1..], needle) {
        var j :| OccursAt(s[1..], needle, j);
        assert OccursAt(s, needle, j + 1);
      }
    }
  }

  predicate IsProductionColumn(c: string)
  {
    var l := Lower(c);
    ContainsSub(l, "production") || ContainsSub(l, "oil") || ContainsSub(l, "gas")
  }

  /** `production_columns`: the columns whose lower-cased name contains
      `production`, `oil` or `gas`, in column order. */
  function ProductionColumns(columns: seq<string>): (r: seq<string>)
    ensures forall i :: 0 <= i < |r| ==> r[i] in columns && IsProductionColumn(r[i])
    ensures forall i :: 0 <= i < |columns| && IsProductionColumn(columns[i]) ==> columns[i] in r
  {
    Seqs.Filter(IsProductionColumn, columns)
  }

  /** The match ignores case: `Oil_Production_bbl` and `GAS_RATE` both qualify. */
  lemma ClassificationExamples()
    ensures IsProductionColumn("Oil_Production_bbl")
    ensures IsProductionColumn("GAS_RATE")
    ensures !IsProductionColumn("Date")
  {
    assert Lower("Oil_Production_bbl")[0..3] == "oil";
    assert Lower("GAS_RATE")[0..3] == "gas";
    var d := Lower("Date");
    assert d == "date";
    assert d[..3] == "dat" && d[1..] == "ate" && d[1..][..3] == "ate" && d[1..][1..] == "te";
    assert !ContainsSub(d[1..][1..], "oil") && !ContainsSub(d[1..][1..], "gas");
    assert !ContainsSub(d[1..], "oil") && !ContainsSub(d[1..], "gas");
    assert !ContainsSub(d, "production");
  }

  /** `Date` must be a column and some column must be a production column;
      otherwise the page shows the missing-columns error. */
  const MissingColumnsMessage := "The data does not have the required columns (Date and production data columns)."

  function ProductionGate(df: Frame): (r: Result<seq<string>>)
    ensures r.Ok? <==> "Date" in df.columns && |ProductionColumns(df.columns)| > 0
    ensures r.Ok? ==> r.value == ProductionColumns(df.columns)
  {
    var pc := ProductionColumns(df.columns);
    if "Date" in df.columns && pc != [] then Ok(pc)
    else Err(MissingColumnsMessage)
  }

  // ----- well selection -----

  /** The well filter: the rows whose `Well_ID` is selected; an empty selection
      is refused with a warning, and nothing is analysed. */
  function SelectWells(rows: seq<Row>, selected: seq<Cell>): (r: Result<seq<Row>>)
    ensures r.Err? <==> selected == []
    ensures r.Ok? ==> forall i :: 0 <= i < |r.value| ==> r.value[i] in rows && Get(r.value[i], "Well_ID") in selected
    ensures r.Ok? ==> forall i :: 0 <= i < |rows| && Get(rows[i], "Well_ID") in selected ==> rows[i] in r.value
  {
    if selected == [] then Err("Please select at least one well.")
    else Ok(SelectIn(rows, "Well_ID", selected))
  }

  /** The default selection (every distinct well) keeps every row, but an
      empty table offers no well and so gets the warning. */
  lemma DefaultWellSelection(rows: seq<Row>)
    ensures |rows| > 0 ==> SelectWells(rows, Seqs.Unique(ColumnCells(rows, "Well_ID"))) == Ok(rows)
    ensures rows == [] ==> SelectWells(rows, Seqs.Unique(ColumnCells(rows, "Well_ID"))).Err?
  {
    var sel := Seqs.Unique(ColumnCells(rows, "Well_ID"));
    if |rows| > 0 {
      assert ColumnCells(rows, "Well_ID")[0] in sel;
      SelectAllValuesKeepsAll(rows, "Well_ID", sel);
    } else {
      assert ColumnCells(rows, "Well_ID") == [];
    }
  }

  // ----- resampling frequency -----

  const FrequencyOptions: seq<string> := ["Daily", "Weekly", "Monthly", "Quarterly", "Yearly"]

  /** `freq_map[resample_freq]`: `None` for a name outside the map (a `KeyError`). */
  function FrequencyCode(name: string): (r: Option<string>)
    ensures r.Some? <==> name in FrequencyOptions
  {
    if name == "Daily" then Some("D")
    else if name == "Weekly" then Some("W")
    else if name == "Monthly" then Some("M")
    else if name == "Quarterly" then Some("Q")
    else if name == "Yearly" then Some("Y")
    else None
  }

  /** Every option of the select box has a code, and no two share one. */
  lemma FrequencyCodesDistinct()
    ensures forall i :: 0 <= i < |FrequencyOptions| ==> FrequencyCode(FrequencyOptions[i]).Some?
    ensures forall i, j :: 0 <= i < j < |FrequencyOptions| ==>
              FrequencyCode(FrequencyOptions[i]) != FrequencyCode(FrequencyOptions[j])
    ensures FrequencyCode("Monthly") == Some("M")
  {
  }

  // ----- per-well resampling -----

  /** `resample(freq).sum()` followed by `reset_index()`, taken as given. */
  type Resampler = seq<Row> -> seq<Row>

  /** `filtered_df_indexed[filtered_df_indexed['Well_ID'] == well]`: the rows
      of that well, in order. A missing (`NaN`) well equals nothing, not even
      the rows whose `Well_ID` is missing, so it selects no row. */
  function WellRows(rows: seq<Row>, well: Cell): (r: seq<Row>)
    ensures well.Missing? ==> r == []
    ensures forall i :: 0 <= i < |r| ==> r[i] in rows && Get(r[i], "Well_ID") == well
    ensures !well.Missing? ==> forall i :: 0 <= i < |rows| && Get(rows[i], "Well_ID") == well ==> rows[i] in r
  {
    if well.Missing? then [] else RowsWithKey(rows, "Well_ID", well)
  }

  /** `resampled['Well_ID'] = well`: every row gets the well, nothing else changes. */
  function Tagged(rows: seq<Row>, well: Cell): (r: seq<Row>)
    ensures |r| == |rows|
    ensures forall i :: 0 <= i < |r| ==> Get(r[i], "Well_ID") == well
    ensures forall i, c :: 0 <= i < |r| && c != "Well_ID" ==> Get(r[i], c) == Get(rows[i], c)
  {
    seq(|rows|, i requires 0 <= i < |rows| => rows[i]["Well_ID" := well])
  }

  /** The resampled piece of one well: one row per row the resampler gives
      back, each carrying that well, whatever the resampler made of `Well_ID`
      (summing text columns, say). */
  function Piece(rows: seq<Row>, well: Cell, resample: Resampler): (r: seq<Row>)
    ensures |r| == |resample(WellRows(rows, well))|
    ensures forall k :: 0 <= k < |r| ==> Get(r[k], "Well_ID") == well
    ensures forall k, c :: 0 <= k < |r| && c != "Well_ID" ==> Get(r[k], c) == Get(resample(WellRows(rows, well))[k], c)
  {
    Tagged(resample(WellRows(rows, well)), well)
  }

  /** `row` is one of the rows of one of the pieces. */
  predicate FromPieces(pieces: seq<seq<Row>>, row: Row)
  {
    exists i, k :: 0 <= i < |pieces| && 0 <= k < |pieces[i]| && row == pieces[i][k]
  }

  /** `pd.concat`: every row of every piece, and no other row. */
  function Concat(pieces: seq<seq<Row>>): (r: seq<Row>)
    ensures forall i, k :: 0 <= i < |pieces| && 0 <= k < |pieces[i]| ==> pieces[i][k] in r
    ensures forall j :: 0 <= j < |r| ==> FromPieces(pieces, r[j])
  {
    if pieces == [] then []
    else
      var rest := Concat(pieces[1..]);
      ConcatStep(pieces, rest);
      pieces[0] + rest
  }

  /** The inductive step of `Concat`: the first piece followed by the
      concatenation of the others. */
  lemma ConcatStep(pieces: seq<seq<Row>>, rest: seq<Row>)
    requires pieces != []
    requires forall i, k :: 0 <= i < |pieces[1..]| && 0 <= k < |pieces[1..][i]| ==> pieces[1..][i][k] in rest
    requires forall j :: 0 <= j < |rest| ==> FromPieces(pieces[1..], rest[j])
    ensures forall i, k :: 0 <= i < |pieces| && 0 <= k < |pieces[i]| ==> pieces[i][k] in pieces[0] + rest
    ensures forall j :: 0 <= j < |pieces[0] + rest| ==> FromPieces(pieces, (pieces[0] + rest)[j])
  {
    var joined := pieces[0] + rest;
    var tail := pieces[1..];
    forall i, k | 0 <= i < |pieces| && 0 <= k < |pieces[i]| ensures pieces[i][k] in joined {
      if i == 0 {
        assert joined[k] == pieces[0][k];
      } else {
        assert tail[i - 1][k] == pieces[i][k];
        var j :| 0 <= j < |rest| && rest[j] == tail[i - 1][k];
        assert joined[|pieces[0]| + j] == rest[j];
      }
    }
    forall j | 0 <= j < |joined| ensures FromPieces(pieces, joined[j]) {
      if j < |pieces[0]| {
        assert joined[j] == pieces[0][j];
      } else {
        assert joined[j] == rest[j - |pieces[0]|];
        assert FromPieces(tail, rest[j - |pieces[0]|]);
        var i, k :| 0 <= i < |tail| && 0 <= k < |tail[i]| && rest[j - |pieces[0]|] == tail[i][k];
        assert joined[j] == pieces[i + 1][k];
      }
    }
  }

  /** The pieces keep their order: concatenating one more piece appends its rows. */
  lemma {:induction false} ConcatAppend(pieces: seq<seq<Row>>, p: seq<Row>)
    ensures Concat(pieces + [p]) == Concat(pieces) + p
  {
    if pieces == [] {
      assert [p][1..] == [];
    } else {
      assert (pieces + [p])[1..] == pieces[1..] + [p];
      ConcatAppend(pieces[1..], p);
    }
  }

  /** The `for well in selected_wells` loop: one piece per selected well, in
      selection order, each tagged with its own well, then concatenated. */
  method ResampleByWell(filtered: seq<Row>, selected: seq<Cell>, resample: Resampler)
    returns (pieces: seq<seq<Row>>, combined: seq<Row>)
    ensures |pieces| == |selected|
    ensures forall i :: 0 <= i < |selected| ==> pieces[i] == Piece(filtered, selected[i], resample)
    ensures combined == Concat(pieces)
    ensures forall j :: 0 <= j < |combined| ==> Get(combined[j], "Well_ID") in selected
  {
    pieces := [];
    for i := 0 to |selected|
      invariant |pieces| == i
      invariant forall j :: 0 <= j < i ==> pieces[j] == Piece(filtered, selected[j], resample)
    {
      var wellData := WellRows(filtered, selected[i]);
      var resampled := resample(wellData);
      resampled := Tagged(resampled, selected[i]);
      pieces := pieces + [resampled];
    }
    combined := Concat(pieces);
  }

  // ----- moving average -----

  const MinWindow := 2
  const MaxWindow := 12
  const DefaultWindow := 3

  /** The average of the `w` values ending at position `i`, undefined while
      fewer than `w` values have been seen. */
  function WindowMean(xs: seq<real>, w: nat, i: nat): (m: Option<real>)
    requires w >= 1 && i < |xs|
    ensures m.None? <==> i < w - 1
    ensures w - 1 <= i ==> m.value * (w as real) == Seqs.Sum(xs[i - w + 1..i + 1])
  {
    if i < w - 1 then None
    else
      Seqs.MeanScaled(xs[i - w + 1..i + 1]);
      Seqs.Mean(xs[i - w + 1..i + 1])
  }

  /** `series.rolling(window=w).mean()`: the first `w - 1` positions have no
      value; position `i` averages positions `i - w + 1` through `i`. */
  function RollingMean(xs: seq<real>, w: nat): (r: seq<Option<real>>)
    requires w >= 1
    ensures |r| == |xs|
    ensures forall i :: 0 <= i < |xs| ==> (r[i].None? <==> i < w - 1)
    ensures forall i :: w - 1 <= i < |xs| ==> r[i].value * (w as real) == Seqs.Sum(xs[i - w + 1..i + 1])
  {
    seq(|xs|, i requires 0 <= i < |xs| => WindowMean(xs, w, i))
  }

  /** A defined moving average lies between the smallest and largest value of its window. */
  lemma RollingMeanWithinWindow(xs: seq<real>, w: nat, i: nat)
    requires w >= 1 && w - 1 <= i < |xs|
    ensures var window := xs[i - w + 1..i + 1];
            |window| == w && Seqs.Min(window) <= RollingMean(xs, w)[i].value <= Seqs.Max(window)
  {
    Seqs.MeanWithinRange(xs[i - w + 1..i + 1]);
  }

  /** The average never looks ahead: a prefix of the series has the prefix of
      its moving average. */
  lemma RollingMeanCausal(xs: seq<real>, w: nat, k: nat)
    requires w >= 1 && k <= |xs|
    ensures RollingMean(xs[..k], w) == RollingMean(xs, w)[..k]
  {
    forall i | 0 <= i < k ensures RollingMean(xs[..k], w)[i] == RollingMean(xs, w)[i] {
      if i >= w - 1 {
        assert xs[..k][i - w + 1..i + 1] == xs[i - w + 1..i + 1];
      }
    }
  }

  /** A window of three over [10, 20, 30, 40] gives [undefined, undefined, 20, 30]. */
  lemma RollingMeanExample()
    ensures RollingMean([10.0, 20.0, 30.0, 40.0], 3) == [None, None, Some(20.0), Some(30.0)]
  {
    var xs := [10.0, 20.0, 30.0, 40.0];
    assert xs[0..3] == [10.0, 20.0, 30.0];
    assert xs[1..4] == [20.0, 30.0, 40.0];
    assert Seqs.Sum([10.0, 20.0, 30.0]) == 60.0;
    assert Seqs.Sum([20.0, 30.0, 40.0]) == 90.0;
  }

  /** `resampled_df.groupby('Date')[col].sum()`: the total over wells per date. */
  function TotalProduction(combined: seq<Row>, col: string): (r: Totals)
    ensures StrictlySorted(r)
    ensures KeysOf(r) == DatesOf(combined, "Date")
    ensures GrandTotal(r) == Seqs.Sum(DatedAddends(combined, "Date", col))
    ensures forall t :: TotalAt(r, t) == Seqs.Sum(AddendsAt(combined, "Date", col, t))
  {
    GroupSumByDate(combined, "Date", col)
  }

  function TotalsValues(g: Totals): (xs: seq<real>)
    ensures |xs| == |g|
    ensures forall i :: 0 <= i < |g| ==> xs[i] == g[i].1
  {
    seq(|g|, i requires 0 <= i < |g| => g[i].1)
  }

  /** The moving average of the total production of the selected wells. */
  function TotalMovingAverage(combined: seq<Row>, col: string, w: nat): (r: seq<(int, Option<real>)>)
    requires w >= 1
    ensures |r| == |TotalProduction(combined, col)|
    ensures forall i :: 0 <= i < |r| ==> r[i].0 == TotalProduction(combined, col)[i].0
    ensures forall i :: 0 <= i < |r| ==> (r[i].1.None? <==> i < w - 1)
    ensures forall i :: w - 1 <= i < |r| ==>
              r[i].1.value * (w as real) == Seqs.Sum(TotalsValues(TotalProduction(combined, col))[i - w + 1..i + 1])
  {
    var total := TotalProduction(combined, col);
    var ma := RollingMean(TotalsValues(total), w);
    seq(|total|, i requires 0 <= i < |total| => (total[i].0, ma[i]))
  }

  // ----- decline curve preparation -----

  const NanosPerDay := 86_400_000_000_000

  /** The smallest timestamp of a non-empty list. */
  function Earliest(dates: seq<int>): (m: int)
    requires |dates| > 0
    ensures m in dates
    ensures forall i :: 0 <= i < |dates| ==> m <= dates[i]
  {
    if |dates| == 1 then dates[0]
    else var m' := Earliest(dates[1..]); if dates[0] <= m' then dates[0] else m'
  }

  /** `(date - date.min()).dt.days`: whole days since the first date (the
      difference is never negative, so flooring and truncating agree). */
  function ElapsedDays(dates: seq<int>): (days: seq<int>)
    requires |dates| > 0
    ensures |days| == |dates|
    ensures forall i :: 0 <= i < |dates| ==> days[i] == (dates[i] - Earliest(dates)) / NanosPerDay && days[i] >= 0
  {
    var first := Earliest(dates);
    seq(|dates|, i requires 0 <= i < |dates| => (dates[i] - first) / NanosPerDay)
  }

  /** The day count of the first date is zero. */
  lemma ElapsedDaysStartAtZero(dates: seq<int>)
    requires |dates| > 0
    ensures 0 in ElapsedDays(dates)
  {
    var first := Earliest(dates);
    var i :| 0 <= i < |dates| && dates[i] == first;
    assert ElapsedDays(dates)[i] == 0;
  }

  function MaxInt(xs: seq<int>): (m: int)
    requires |xs| > 0
    ensures m in xs
    ensures forall i :: 0 <= i < |xs| ==> xs[i] <= m
  {
    if |xs| == 1 then xs[0]
    else var m' := MaxInt(xs[1..]); if xs[0] >= m' then xs[0] else m'
  }

  /** `np.arange(0, max_days * 1.5)`: the whole days from zero up to, but not
      including, one and a half times the last observed day. */
  function ForecastDays(maxDays: nat): (g: seq<int>)
    ensures forall k :: 0 <= k < |g| ==> g[k] == k
    ensures forall k: int :: 0 <= k ==> (k < |g| <==> 2 * k < 3 * maxDays)
  {
    var n := (3 * maxDays + 1) / 2;
    seq(n, k requires 0 <= k < n => k)
  }

  /** `first_date + pd.Timedelta(days=int(d))`. */
  function ForecastDates(first: int, days: seq<int>): (r: seq<int>)
    ensures |r| == |days|
    ensures forall i :: 0 <= i < |r| ==> r[i] - first == days[i] * NanosPerDay
  {
    seq(|days|, i requires 0 <= i < |days| => first + days[i] * NanosPerDay)
  }

  /** What the regression and the forecast are computed from. */
  datatype DeclineInput = DeclineInput(points: Totals, days: seq<int>, forecastDays: seq<int>, forecastDates: seq<int>)

  predicate Positive(p: (int, real)) { p.1 > 0.0 }

  function DatesOfTotals(g: Totals): (ds: seq<int>)
    ensures |ds| == |g|
    ensures forall i :: 0 <= i < |g| ==> ds[i] == g[i].0
  {
    seq(|g|, i requires 0 <= i < |g| => g[i].0)
  }

  /** What the fit is computed from, for the kept points: days are counted
      from the earliest kept date, and the forecast runs half as long again
      past the last one. */
  function DeclineFrom(valid: Totals): (d: DeclineInput)
    requires |valid| > 0
    ensures d.points == valid
    ensures d.days == ElapsedDays(DatesOfTotals(valid))
    ensures (forall i :: 0 <= i < |d.days| ==> d.days[i] >= 0) && 0 in d.days
    ensures d.forecastDays == ForecastDays(MaxInt(d.days))
    ensures d.forecastDates == ForecastDates(Earliest(DatesOfTotals(valid)), d.forecastDays)
  {
    var dates := DatesOfTotals(valid);
    var days := ElapsedDays(dates);
    ElapsedDaysStartAtZero(dates);
    var grid := ForecastDays(MaxInt(days));
    DeclineInput(valid, days, grid, ForecastDates(Earliest(dates), grid))
  }

  /** The decline-curve preparation: only positive totals are kept (so that
      their logarithm exists); more than five are needed, otherwise the page
      warns. */
  function PrepareDecline(total: Totals): (r: Result<DeclineInput>)
    ensures r.Err? <==> |Seqs.Filter(Positive, total)| <= 5
    ensures r.Ok? ==> var d := r.value;
      && d.points == Seqs.Filter(Positive, total)
      && (forall i :: 0 <= i < |d.points| ==> d.points[i].1 > 0.0 && d.points[i] in total)
      && d.days == ElapsedDays(DatesOfTotals(d.points))
      && (forall i :: 0 <= i < |d.days| ==> d.days[i] >= 0)
      && 0 in d.days
      && d.forecastDays == ForecastDays(MaxInt(d.days))
      && d.forecastDates == ForecastDates(Earliest(DatesOfTotals(d.points)), d.forecastDays)
  {
    var valid := Seqs.Filter(Positive, total);
    if |valid| > 5 then Ok(DeclineFrom(valid))
    else Err("Not enough valid data points for decline curve analysis.")
  }

  /** Points the decline analysis drops (zero, negative) never reach it, and
      every positive total does. */
  lemma PrepareDeclineKeepsPositive(total: Totals, t: int, v: real)
    requires |Seqs.Filter(Positive, total)| > 5
    requires (t, v) in total
    ensures (t, v) in PrepareDecline(total).value.points <==> v > 0.0
  {
    var i :| 0 <= i < |total| && total[i] == (t, v);
    if (t, v) in PrepareDecline(total).value.points {
      var j :| 0 <= j < |PrepareDecline(total).value.points| && PrepareDecline(total).value.points[j] == (t, v);
    }
  }

  /** The forecast horizon covers every observed day. */
  lemma ForecastCoversObservations(total: Totals)
    requires |Seqs.Filter(Positive, total)| > 5
    ensures var d := PrepareDecline(total).value;
            forall i :: 0 <= i < |d.days| && d.days[i] > 0 ==> d.days[i] < |d.forecastDays|
  {
    var d := PrepareDecline(total).value;
    var m := MaxInt(d.days);
    forall i | 0 <= i < |d.days| && d.days[i] > 0 ensures d.days[i] < |d.forecastDays| {
      assert 2 * d.days[i] < 3 * m;
    }
  }

  /** `decline_rate = -slope * 365`: a falling log-production gives a positive
      annual decline rate, a rising one a negative rate. */
  function AnnualDeclineRate(slope: real): (d: real)
    ensures d > 0.0 <==> slope < 0.0
    ensures d == 0.0 <==> slope == 0.0
    ensures d / 365.0 == -slope
  {
    -slope * 365.0
  }

  // ----- the page without a Well_ID column -----

  /** Without `Well_ID` the whole table is resampled as one well and the
      moving average runs over its own production column. */
  function SingleWellMovingAverage(rows: seq<Row>, resample: Resampler, col: string, w: nat): (r: seq<Option<real>>)
    requires w >= 1
    ensures |r| == |resample(rows)|
    ensures forall i :: 0 <= i < |r| ==> (r[i].None? <==> i < w - 1)
    ensures forall i :: w - 1 <= i < |r| ==>
              r[i].value * (w as real) == Seqs.Sum(NumbersOrZero(ColumnCells(resample(rows), col))[i - w + 1..i + 1])
  {
    RollingMean(NumbersOrZero(ColumnCells(resample(rows), col)), w)
  }

  /** A resampled sum is numeric; a cell that is not a number is read as zero. */
  function NumbersOrZero(cells: seq<Cell>): (xs: seq<real>)
    ensures |xs| == |cells|
    ensures forall i :: 0 <= i < |cells| ==> xs[i] == (if cells[i].Num? then cells[i].x else 0.0)
  {
    seq(|cells|, i requires 0 <= i < |cells| => if cells[i].Num? then cells[i].x else 0.0)
  }
}

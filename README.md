# Oil & Gas Data Dashboard — a verified model of its selection, filtering and state rules

The dashboard is a Streamlit application with three analysis pages (well logs,
production, drilling KPIs) and a landing page. Almost all arithmetic is done by
pandas, lasio, scipy and plotly. What the application's own code decides is this:

- which session keys exist and when they are overwritten;
- which sample file belongs to which kind of data, and what a loader returns on failure;
- which columns count as curves, production columns or KPIs;
- which rows survive the depth, well and formation filters;
- how the per-well resampling loop tags and concatenates its pieces;
- where a moving average is undefined;
- which points the decline fit may use, and the forecast grid it draws;
- what the overview cards show when data is missing;
- what each chart puts on which axis.

This project models those rules in Dafny and proves what they guarantee.

Tables are modelled abstractly:

- a `Frame` is a column list plus rows;
- each row is a map from column name to a `Cell`;
- a `Cell` is a number (`real`), text, a timestamp in nanoseconds, or missing (NaN/NaT, or an absent key).

A chart is modelled as a value: which rows go in, its traces (name, x, y, subplot column, colour), the panel count, the subplot titles, the shared and reversed y-axis, the colour grouping and the unified hover.

Modules, one per source file plus three shared ones:

| file | module | models |
|---|---|---|
| wrappers.dfy | `Wrappers` | `Option`, `Result` |
| seqs.dfy | `Seqs` | filter, sum, min/max, mean, first-occurrence unique |
| frames.dfy | `Frames` | cells, rows, frames; range filter, `isin`, column extent, drop column, group-by sums by date and means by key |
| session_state.dfy | `SessionState` | `utils/session_state.py` (class `SessionStore`) |
| data_loader.dfy | `DataLoader` | `utils/data_loader.py` |
| visualization.dfy | `Visualization` | `utils/visualization.py` |
| well_log_page.dfy | `WellLogAnalysis` | `pages/1_Well_Log_Analysis.py` |
| production_page.dfy | `ProductionAnalysis` | `pages/2_Production_Analysis.py` |
| drilling_page.dfy | `DrillingKpis` | `pages/3_Drilling_KPIs.py` |
| overview.dfy | `Overview` | `app.py` |

How the Python code maps onto the model:

- **Session keys.** A key of `st.session_state` is a `Slot`: `Absent`, or `Present` holding an `Option`. This keeps "not created" apart from "created and `None`".
- **Exceptions.** An uncaught Python exception becomes an explicit outcome (`None`, `Err`, or `MissingColumn`). Examples are `list.remove` on a missing item, an out-of-range index, and a `KeyError`.
- **Foreign calls.** These are function parameters: `lasio.read`, `pd.read_csv`, `pd.to_datetime`, `resample(...).sum()`, `os.path.exists` and number formatting.

## Model

| member | source | states |
|---|---|---|
| SessionState.Ensure | utils/session_state.py:5-6 | an absent key is created holding `None`; a present key is returned unchanged |
| SessionState.Initialized | utils/session_state.py:3-18 | after initialisation all five keys exist; every key that existed keeps its value, and every new key holds `None` |
| SessionState.InitializedFromEmpty | utils/session_state.py:3-18 | a fresh session ends with all five keys holding `None` |
| SessionState.InitializedIdempotent | utils/session_state.py:3-18 | initialising twice equals initialising once |
| SessionState.InitializedFixesAllPresent | utils/session_state.py:3-18 | on a record with every key present, initialisation changes nothing |
| SessionState.SessionStore.constructor | utils/session_state.py:3 | a new session has none of the five keys |
| SessionState.SessionStore.Initialize | utils/session_state.py:3-18 | new state is `Initialized(old state)`: only absent keys are set, to `None` |
| SessionState.SessionStore.SetWellLogData | utils/session_state.py:20-22 | `well_log_data` becomes the argument; the other four keys are unchanged |
| SessionState.SessionStore.SetProductionData | utils/session_state.py:24-26 | only `production_data` changes, to the argument |
| SessionState.SessionStore.SetDrillingData | utils/session_state.py:28-30 | only `drilling_data` changes, to the argument |
| SessionState.SessionStore.SetSelectedWell | utils/session_state.py:32-34 | only `selected_well` changes, to the argument |
| SessionState.SessionStore.SetDepthRange | utils/session_state.py:36-38 | only `depth_range` changes, to the argument |
| SessionState.SetTwiceLastWins | utils/session_state.py:36-38 | after two writes only the second value is held; nothing else changed |
| SessionState.SetThenInitialize | utils/session_state.py:3-22 | initialising after a setter keeps the value that was set |
| DataLoader.Join | utils/data_loader.py:72-79 | `os.path.join`: the path starts with the directory and ends with the part, with at most one character between them, and that one is a `/` |
| DataLoader.SampleDataPath | utils/data_loader.py:70-81 | `well_log`, `production` and `drilling` map to `synthetic_well.las`, `production_data.csv` and `drilling_data.csv` in `<root>/data`; any other kind gives `None` |
| DataLoader.SamplePathsDistinct | utils/data_loader.py:72-79 | the three sample paths share the `data` directory prefix and are pairwise distinct |
| DataLoader.RenameKey | utils/data_loader.py:23 | renaming a key moves its cell and leaves other keys alone |
| DataLoader.IndexColumn | utils/data_loader.py:22 | the index's own name; for an unnamed index `index`, or `level_0` when `index` is already a column |
| DataLoader.ResetAndRename | utils/data_loader.py:21-23 | the index becomes the first column under the name `reset_index` gives it, every column named `index` is renamed `DEPTH`, the other columns follow in order, one row per log row, each holding its index value |
| DataLoader.LoadLasFile | utils/data_loader.py:9-28 | both results are `None` exactly when reading failed or `reset_index` would insert a column that already exists; otherwise the reader's object and the reset, renamed table |
| DataLoader.UnnamedIndexBecomesDepth | utils/data_loader.py:21-23 | with an unnamed index and no `index` curve, the table's first column is `DEPTH`, and each row's `DEPTH` is its index value |
| DataLoader.UnnamedIndexBesideIndexCurve | utils/data_loader.py:21-23 | beside a curve called `index`, the unnamed index is inserted as `level_0` and that curve, not the index, is renamed `DEPTH` |
| DataLoader.IndexNameClashFails | utils/data_loader.py:22-28 | an index named like an existing column makes the whole load return `(None, None)` |
| DataLoader.ConvertColumn | utils/data_loader.py:43 | the column is replaced cell by cell with the parser's values; any unparseable cell makes the whole load fail |
| DataLoader.ConvertIfPresent | utils/data_loader.py:42-45 | a missing column leaves the table unchanged; a read failure stays a failure |
| DataLoader.LoadProductionData | utils/data_loader.py:31-48 | `Date` is converted (with an inferred format) only when present, each cell becoming its parsed value; failure is `None`; columns and row count are kept |
| DataLoader.LoadDrillingData | utils/data_loader.py:51-68 | `Timestamp` is converted with the format `%Y-%m-%d %H:%M:%S.%f` only when present; failure is `None` |
| DataLoader.ConversionTouchesOneColumn | utils/data_loader.py:42-43 | every cell outside the converted column is what the reader produced |
| Visualization.DepthFiltered | utils/visualization.py:9-10 | with a range, exactly the rows with lo <= DEPTH <= hi are kept, in order; without one all rows |
| Visualization.PlotWellLog | utils/visualization.py:7-14 | one trace: curve on x, `DEPTH` on y, y reversed, over the depth-filtered rows |
| Visualization.PlotMultiWellLog | utils/visualization.py:16-28 | one trace per curve; curve i is in subplot column i+1; shared, reversed depth axis; titles are the curves |
| Visualization.PlotProductionTrend | utils/visualization.py:30-38 | `Date` on x; a colour grouping exactly when a non-empty column name is given; unified hover |
| Visualization.PlotDrillingKpi | utils/visualization.py:40-48 | depth-based: parameter on x, `Depth` on y, reversed; time-based: `Timestamp` on x, parameter on y, not reversed |
| Visualization.KpiCard | utils/visualization.py:50-55 | value and delta are each followed by a space and the unit; a delta is shown exactly when one is given |
| Visualization.KpiLabelRecoversValue | utils/visualization.py:53-55 | the shown label splits back into the value and " unit" |
| WellLogAnalysis.HeaderValue | pages/1_Well_Log_Analysis.py:70-72 | an entry exists only for a mnemonic of the header, and is the "value unit" text of one of its items |
| WellLogAnalysis.HeaderValueIsLastItem | pages/1_Well_Log_Analysis.py:70-72 | an item whose mnemonic does not occur later in the header decides that mnemonic's entry: its "value unit" |
| WellLogAnalysis.HeaderValueAbsent | pages/1_Well_Log_Analysis.py:70-72 | a mnemonic not in the header has no entry |
| WellLogAnalysis.WellInfo | pages/1_Well_Log_Analysis.py:70-72 | the dictionary built by the loop has exactly the header's mnemonics as keys, each with its last item's "value unit" |
| WellLogAnalysis.HeaderPresent | pages/1_Well_Log_Analysis.py:70-72 | every header mnemonic has an entry |
| WellLogAnalysis.IndexOf | pages/1_Well_Log_Analysis.py:88 | the position of the first occurrence |
| WellLogAnalysis.RemoveFirst | pages/1_Well_Log_Analysis.py:88 | `list.remove`: fails exactly when the item is absent; otherwise the list minus its first occurrence, other items in order |
| WellLogAnalysis.AvailableCurves | pages/1_Well_Log_Analysis.py:87-88 | fails exactly without a `DEPTH` column; otherwise the column list with its first `DEPTH` taken out, the other columns in order |
| WellLogAnalysis.SingleDepthColumnRemoved | pages/1_Well_Log_Analysis.py:87-88 | with one `DEPTH` column, no `DEPTH` remains among the curves |
| WellLogAnalysis.DefaultDepthRange | pages/1_Well_Log_Analysis.py:95-97 | the slider default is (min DEPTH, max DEPTH): defined exactly when some depth is a number, both bounds are depths of the log, and every numeric depth lies between them |
| WellLogAnalysis.DefaultCurveSelection | pages/1_Well_Log_Analysis.py:105 | the default multiselect is the first curve; an empty curve list is an `IndexError` |
| WellLogAnalysis.DefaultSecondIndex | pages/1_Well_Log_Analysis.py:119 | `min(1, n-1)` is a valid index for n >= 1: 1 when there are two curves or more, 0 for one |
| WellLogAnalysis.ColorByOptions | pages/1_Well_Log_Analysis.py:122 | "None" first, then every curve |
| WellLogAnalysis.CrossplotColor | pages/1_Well_Log_Analysis.py:127-131 | no colouring exactly when "None" is chosen, else colouring by the chosen curve |
| WellLogAnalysis.CrossplotRows | pages/1_Well_Log_Analysis.py:125 | exactly the rows with lo <= DEPTH <= hi, in order |
| WellLogAnalysis.CrossplotMatchesCurvePlot | pages/1_Well_Log_Analysis.py:100-125 | the crossplot and the single-curve plot see the same rows for the same window |
| WellLogAnalysis.DefaultWindowKeepsEveryDepth | pages/1_Well_Log_Analysis.py:95-125 | under the default slider every row with a numeric depth is kept, and every row when all depths are numbers |
| WellLogAnalysis.CorrelationInput | pages/1_Well_Log_Analysis.py:137 | the filtered rows with the `DEPTH` column dropped from columns and rows |
| ProductionAnalysis.Lower | pages/2_Production_Analysis.py:72 | `str.lower` on ASCII letters, other characters unchanged |
| ProductionAnalysis.ContainsSubIffOccurs | pages/2_Production_Analysis.py:72 | `needle in s` holds exactly when the needle occurs at some position of `s` |
| ProductionAnalysis.ProductionColumns | pages/2_Production_Analysis.py:72 | exactly the columns whose lower-cased name contains `production`, `oil` or `gas`, in column order |
| ProductionAnalysis.ClassificationExamples | pages/2_Production_Analysis.py:72 | `Oil_Production_bbl` and `GAS_RATE` qualify, `Date` does not |
| ProductionAnalysis.ProductionGate | pages/2_Production_Analysis.py:71-74 | analysis proceeds exactly when `Date` is a column and some production column exists; otherwise an error |
| ProductionAnalysis.SelectWells | pages/2_Production_Analysis.py:85-87 | an empty selection is a warning; otherwise exactly the rows whose `Well_ID` is selected |
| ProductionAnalysis.DefaultWellSelection | pages/2_Production_Analysis.py:82-87 | the default selection (all distinct wells) keeps every row of a non-empty table |
| ProductionAnalysis.FrequencyCode | pages/2_Production_Analysis.py:91-99 | defined exactly on the five options of the select box |
| ProductionAnalysis.FrequencyCodesDistinct | pages/2_Production_Analysis.py:91-99 | every option has a code, no two options share one; Monthly is M |
| ProductionAnalysis.WellRows | pages/2_Production_Analysis.py:107 | only rows of that well, and every row of a well that is not missing; a missing (`NaN`) well selects no row, as `NaN == NaN` is false |
| ProductionAnalysis.Tagged | pages/2_Production_Analysis.py:109 | every row gets the well in `Well_ID`; every other cell is unchanged |
| ProductionAnalysis.Piece | pages/2_Production_Analysis.py:107-109 | one row per resampled row of the well, each carrying the well whatever the resampler made of `Well_ID`, the other cells as resampled |
| ProductionAnalysis.Concat | pages/2_Production_Analysis.py:113 | `pd.concat`: every row of every piece is in the result, and every row of the result comes from a piece |
| ProductionAnalysis.ConcatAppend | pages/2_Production_Analysis.py:113 | the pieces keep their order: one more piece appends its rows |
| ProductionAnalysis.ResampleByWell | pages/2_Production_Analysis.py:105-113 | one piece per selected well, in selection order, each its well's resampled rows tagged with the well; the result is their concatenation and every row carries a selected well |
| ProductionAnalysis.WindowMean | pages/2_Production_Analysis.py:134 | position i is undefined exactly when i < window-1; otherwise window × its value is the sum of the `window` values ending at i |
| ProductionAnalysis.RollingMean | pages/2_Production_Analysis.py:134 | one entry per position; position i is undefined exactly when i < window-1, and otherwise window × entry is the sum of the `window` values ending at i |
| ProductionAnalysis.RollingMeanWithinWindow | pages/2_Production_Analysis.py:134 | a defined entry averages the `window` values ending at i and lies between their minimum and maximum |
| ProductionAnalysis.RollingMeanCausal | pages/2_Production_Analysis.py:134 | the average never looks ahead: a prefix of the series has the prefix of the averages |
| ProductionAnalysis.RollingMeanExample | pages/2_Production_Analysis.py:133-134 | window 3 over [10, 20, 30, 40] gives [undefined, undefined, 20, 30] |
| ProductionAnalysis.TotalProduction | pages/2_Production_Analysis.py:130 | totals per date are strictly sorted by date, one per distinct date, each the sum of that date's values, and together all dated values |
| ProductionAnalysis.TotalMovingAverage | pages/2_Production_Analysis.py:130-134 | one entry per date of the totals, at the same dates; undefined for the first window-1 dates, otherwise window × entry is the sum of the totals of the `window` dates ending there |
| ProductionAnalysis.Earliest | pages/2_Production_Analysis.py:160 | the minimum date is one of the dates and below every other |
| ProductionAnalysis.ElapsedDays | pages/2_Production_Analysis.py:160 | whole days since the earliest date, all >= 0 |
| ProductionAnalysis.ElapsedDaysStartAtZero | pages/2_Production_Analysis.py:160 | the earliest date has day count 0 |
| ProductionAnalysis.MaxInt | pages/2_Production_Analysis.py:174 | the maximum day is one of the days and above every other |
| ProductionAnalysis.ForecastDays | pages/2_Production_Analysis.py:175 | the grid is 0, 1, 2, …; k is in it exactly when k < 1.5 × max_days |
| ProductionAnalysis.ForecastDates | pages/2_Production_Analysis.py:179-180 | each forecast date is the first date plus that many whole days |
| ProductionAnalysis.DatesOfTotals | pages/2_Production_Analysis.py:160 | the date column of the totals, position by position |
| ProductionAnalysis.DeclineFrom | pages/2_Production_Analysis.py:160-180 | the kept points, their days since the earliest of them (>= 0, including 0), a grid up to 1.5 × the largest day count, and the forecast dates as the earliest date plus each grid day |
| ProductionAnalysis.PrepareDecline | pages/2_Production_Analysis.py:156-180 | a warning exactly when at most 5 totals are positive; otherwise only the positive totals are used, the day counts are their days since the earliest of them (>= 0, including 0), the grid runs to 1.5 × the largest day count, and the forecast dates are the earliest date plus each grid day |
| ProductionAnalysis.PrepareDeclineKeepsPositive | pages/2_Production_Analysis.py:156 | a total reaches the fit exactly when it is strictly positive |
| ProductionAnalysis.ForecastCoversObservations | pages/2_Production_Analysis.py:174-175 | every observed positive day lies inside the forecast grid |
| ProductionAnalysis.AnnualDeclineRate | pages/2_Production_Analysis.py:171 | `-slope*365`: positive exactly for a falling log-production, zero exactly for a flat one |
| ProductionAnalysis.SingleWellMovingAverage | pages/2_Production_Analysis.py:219-237 | without `Well_ID` the moving average runs over the resampled table's production column: one entry per row, undefined for the first window-1 rows, otherwise window × entry the sum of the window's values |
| ProductionAnalysis.NumbersOrZero | pages/2_Production_Analysis.py:237 | each numeric cell gives its value, any other cell gives 0 |
| DrillingKpis.KpiColumns | pages/3_Drilling_KPIs.py:73 | exactly the columns other than Depth, Timestamp, Formation and Formation_Hardness, in order |
| DrillingKpis.DrillingGate | pages/3_Drilling_KPIs.py:72-75 | analysis proceeds exactly when `Depth` is a column and some KPI column exists; otherwise an error |
| DrillingKpis.DepthFilter | pages/3_Drilling_KPIs.py:83 | exactly the rows with lo <= Depth <= hi, in order |
| DrillingKpis.FormationFilter | pages/3_Drilling_KPIs.py:86-94 | without a Formation column, or with an empty selection, the rows are unchanged; otherwise exactly the rows in a selected formation |
| DrillingKpis.DefaultFiltersKeepAll | pages/3_Drilling_KPIs.py:78-94 | the default depth slider (min Depth, max Depth) and the default formations (all of them) keep every row when each has a numeric depth |
| DrillingKpis.CycleColor | pages/3_Drilling_KPIs.py:113-122 | `colors[i % len(colors)]` is always a palette colour, and the i-th for i below the palette size |
| DrillingKpis.CycleColorPeriodic | pages/3_Drilling_KPIs.py:113-150 | colours repeat after 8 depth-based and 9 time-based parameters |
| DrillingKpis.DepthColorsDistinct | pages/3_Drilling_KPIs.py:113 | the first eight depth-based parameters get different colours |
| DrillingKpis.DepthBasedPlot | pages/3_Drilling_KPIs.py:106-126 | one subplot column per parameter, parameter i in column i+1 on x against `Depth`, colour `colors[i % 8]`, shared reversed depth axis |
| DrillingKpis.TimeBasedGate | pages/3_Drilling_KPIs.py:131 | the time-based view runs exactly when `Timestamp` is a column; otherwise a warning |
| DrillingKpis.TimeParameterOptions | pages/3_Drilling_KPIs.py:135 | the options are `Depth` followed by the KPI columns; the default is `Depth` and the first KPI, both among the options |
| DrillingKpis.TimeBasedPlot | pages/3_Drilling_KPIs.py:137-156 | one line per parameter with `Timestamp` on x, colour `colors[i % 9]`, a single panel, unified hover |
| DrillingKpis.TimeDefaultColors | pages/3_Drilling_KPIs.py:135-141 | with the default parameters, depth is drawn in black and the first KPI in green |
| DrillingKpis.CrossplotColorOptions | pages/3_Drilling_KPIs.py:173 | `Depth` and `None`, followed by `Formation` exactly when that column exists |
| DrillingKpis.DefaultCrossplotAxes | pages/3_Drilling_KPIs.py:168-171 | x is the first KPI; y is the second, or the first when there is only one |
| DrillingKpis.CrossplotChart | pages/3_Drilling_KPIs.py:175-181 | x against y over the filtered rows; no colour grouping exactly when `None` is chosen |
| DrillingKpis.DefaultParameters | pages/3_Drilling_KPIs.py:104 | `kpi_columns[:3]`: the first min(3, n) KPI columns |
| DrillingKpis.FormationKpis | pages/3_Drilling_KPIs.py:193-200 | computed exactly when there is a Formation column; its keys are exactly the non-missing formations present, each with the mean of its numeric KPI values |
| DrillingKpis.FormationAverageBounded | pages/3_Drilling_KPIs.py:200 | each formation's average lies between its smallest and largest KPI value |
| Overview.LoadOnce | app.py:43-47 | a key holding a table is kept; an empty key takes the loader's outcome when the file exists, and stays empty otherwise |
| Overview.LoadAll | app.py:46-58 | the three tables are what the three loaders return |
| Overview.SampleFilesFound | app.py:44-57 | existence is asked of the three sample paths |
| Overview.AfterSampleLoad | app.py:43-59 | the three tables are loaded at most once each; the two selections are untouched |
| Overview.LoadedTablesKept | app.py:43-59 | a table already in the session is never replaced |
| Overview.SampleLoadIdempotent | app.py:43-59 | running the loading blocks twice with the same files and loader outcomes equals running them once |
| Overview.FreshSessionGetsSamples | app.py:43-59 | in a fresh session each table is its loader's outcome when its file exists, and `None` otherwise |
| Overview.StartPage | app.py:31-59 | the state after the page start is the initialised state with each empty table filled as above |
| Overview.DepthRangeKpi | app.py:68-72 | "N/A" exactly without a well log; otherwise max(DEPTH) - min(DEPTH), which is >= 0 (undefined when no depth is a number) |
| Overview.DepthRangeCoversLog | app.py:69 | every numeric depth lies between min DEPTH and min DEPTH plus the range |
| Overview.TotalOilKpi | app.py:75-79 | "N/A" exactly without production data; otherwise the sum of the numeric `Oil_Production_bbl` values |
| Overview.AverageRopKpi | app.py:82-86 | "N/A" exactly without drilling data; otherwise the mean of the numeric `ROP` values, undefined when there is none |
| Overview.AverageRopBounded | app.py:83 | the average ROP lies between the smallest and largest ROP |
| Overview.Distinct | app.py:90 | the distinct non-missing values, no repeats |
| Overview.WellCountKpi | app.py:89-93 | "N/A" exactly unless production data with a `Well_ID` column is loaded; otherwise the number of distinct non-missing well IDs |
| Overview.DistinctNoLonger | app.py:90 | a repeat-free list drawn from a list is no longer than it |
| Overview.SubsetCardinality | app.py:90 | a subset is no larger than its superset |
| Overview.DistinctCardinality | app.py:90 | a repeat-free list has as many distinct values as entries |
| Overview.SeqSetCardinality | app.py:90 | a list has at most as many distinct values as entries |
| Overview.WellCountBounds | app.py:90 | the well count is at most the row count, and at least 1 when some row names a well |
| Overview.NatText | app.py:91 | the text of a count is a non-empty string of decimal digits |
| Overview.NatTextRoundTrip | app.py:91 | the count's text reads back as the count |
| Overview.OverviewCard | app.py:67-93 | a missing column stops the page; otherwise the title, no delta, and the text followed by the unit: "N/A" without data, "nan" for an undefined reduction, the formatted number, or the count's digits |
| Overview.ProductionSummary | app.py:120-125 | needs `Date` and `Oil_Production_bbl`; with `Well_ID` the per-date sums (sorted, one per date, each the sum of that date's oil, conserving the total); without it the (Date, oil) rows as they are |
| Overview.DatedAddendsAreTheTotal | app.py:123 | when every row is dated, the per-date addends sum to the column total |
| Overview.SummaryMatchesTotalCard | app.py:76-123 | when every row is dated, the summary's daily totals add up to the total-oil card |
| Overview.DrillingSummaryChart | app.py:143-148 | drawn exactly when `Depth` and `ROP` exist: ROP on x, Depth on y, reversed |
| Frames.ColumnCells | pages/3_Drilling_KPIs.py:89 | the column's cells, one per row, a missing key read as missing |
| Frames.FilterRange | utils/visualization.py:10 | exactly the rows whose cell is a number in [lo, hi], in order |
| Frames.EmptyRangeKeepsNothing | utils/visualization.py:10 | a window with lo > hi keeps no row |
| Frames.FilterRangeAppend | utils/visualization.py:10 | filtering distributes over concatenation |
| Frames.NumericValues | app.py:76 | the numeric cells of a column, NaN and text skipped: every numeric cell's value is kept and every kept value is some row's numeric cell |
| Frames.ColumnRange | pages/1_Well_Log_Analysis.py:95-96 | (min, max) of a column's numbers: both attained by some row, lo <= hi, bounding every number, undefined exactly when there is none |
| Frames.FullRangeKeepsNumericRows | pages/1_Well_Log_Analysis.py:95-125 | the full-extent window keeps exactly the rows with a numeric cell |
| Frames.FullRangeKeepsAll | pages/1_Well_Log_Analysis.py:95-125 | with every cell numeric, the full-extent window keeps every row |
| Frames.SelectIn | pages/2_Production_Analysis.py:87 | `isin`: exactly the rows whose cell is in the selection, in order |
| Frames.SelectAllValuesKeepsAll | pages/2_Production_Analysis.py:82-87 | selecting every value present keeps every row |
| Frames.DropColumn | pages/1_Well_Log_Analysis.py:137 | the column leaves the column list and every row; all other cells stay |
| Frames.AddToAbove | app.py:123 | when every old key and the new key are above a bound, every key after adding is above it |
| Frames.AddToSorted | app.py:123 | adding to a group keeps the keys strictly sorted |
| Frames.AddToKeys | app.py:123 | adding to a group adds exactly that key |
| Frames.NotAKey | app.py:123 | a date that is not a key has total 0 |
| Frames.AddToTotals | app.py:123 | adding v to group k raises k's total by v, leaves other totals alone, and raises the grand total by v |
| Frames.GroupSumByDate | pages/2_Production_Analysis.py:130 | `groupby(date).sum()`: strictly date-sorted, one entry per distinct date, each the sum of that date's values, grand total conserved |
| Frames.RowsWithKey | pages/2_Production_Analysis.py:107 | exactly the rows whose key cell equals the key, in order |
| Frames.GroupMeans | pages/3_Drilling_KPIs.py:200 | `groupby(key).mean()`: one entry per non-missing key present, each the mean of its rows' numeric values |
| Seqs.Filter | pages/2_Production_Analysis.py:72 | a list comprehension's filter: no longer than the input, keeps exactly the elements that pass |
| Seqs.FilterAppend | utils/visualization.py:10 | filtering distributes over concatenation |
| Seqs.FilterKeepsAll | pages/1_Well_Log_Analysis.py:125 | a filter every element passes is the identity |
| Seqs.FilterKeepsNone | pages/1_Well_Log_Analysis.py:125 | a filter no element passes gives nothing |
| Seqs.FilterSameOn | pages/1_Well_Log_Analysis.py:125 | filters that agree on every element agree |
| Seqs.FilterFilter | pages/3_Drilling_KPIs.py:83-94 | filtering twice is filtering by both conditions |
| Seqs.SumCons | app.py:76 | the sum of a list with one more element in front |
| Seqs.SumAppend | app.py:76 | the sum of a concatenation |
| Seqs.SumBounds | app.py:83 | n values between lo and hi sum to between n×lo and n×hi |
| Seqs.Min | app.py:69 | the minimum is an element and below every element |
| Seqs.Max | app.py:69 | the maximum is an element and above every element |
| Seqs.Mean | app.py:83 | the mean exists exactly for a non-empty list |
| Seqs.MeanScaled | app.py:83 | the mean times the number of values is their sum |
| Seqs.MeanBounded | app.py:83 | a mean of values in [lo, hi] lies in [lo, hi] |
| Seqs.MeanWithinRange | app.py:83 | the mean lies between the minimum and the maximum |
| Seqs.DivideBounds | app.py:83 | a sum between n×lo and n×hi divided by n lies between lo and hi |
| Seqs.NonNegativeFactor | app.py:83 | a non-negative product with a positive factor has a non-negative other factor |
| Seqs.Unique | pages/2_Production_Analysis.py:82 | `unique()`: every value of the list appears, each once, and nothing else |
| Seqs.UniqueAfter | pages/2_Production_Analysis.py:82 | every value not yet seen appears, each once, and no seen value |

## Left out

- utils/style_manager.py and utils/themes.py (CSS and HTML injection, image encoding, colour dictionaries) are not part of this model. They hold no selection or state logic.
- Parsing is an input. `lasio.read` and `pd.read_csv` become a given table or a failure. `pd.to_datetime` becomes a parser function parameter that may fail per cell; the model does not capture which strings parse.
- The calendar-bucket behaviour of `resample(freq).sum()` is a function parameter of `ProductionAnalysis.ResampleByWell` and `ProductionAnalysis.SingleWellMovingAverage`. This covers month-end alignment, empty buckets and the sum of non-numeric columns. The landing page's monthly resample of the summary is left out for the same reason.
- `scipy.stats.linregress`, `np.log`, `np.exp`, R², `describe()`, `.corr()` and the histogram are floating-point library numerics and are not modelled. The decline fit is modelled up to its inputs: the points, the day counts and the forecast grid, plus `decline_rate = -slope*365` over reals.
- Number formatting (`:.1f`, `:.1%`, `:.2f`) is a function parameter of `Overview.OverviewCard`. Counts are written in decimal.
- Streamlit widgets, reruns and `st.cache_data` are not modelled; widget values are parameters. `os.path.exists` is a function parameter, and uploads are a given table.
- The page-level "sample data or upload" branch of the three analysis pages is not modelled separately: it is the loaders under `DataLoader` followed by one setter of `SessionState.SessionStore`. The `'las' in locals()` test does not reach the model either.
- Plot rendering (layout titles, axis titles, horizontal spacing, the colour scale's name) is not modelled beyond the chart value.
- ProductionAnalysis.Lower: lower-cases ASCII letters only; `str.lower` also folds non-ASCII letters.
- ProductionAnalysis.RollingMean: requires a window of at least 1. The page's slider keeps it between 2 and 12 (`MinWindow`, `MaxWindow`).
- DrillingKpis.FormationKpis: the result is a map, so the order of pandas' sorted group rows is not modelled.
- Frames.NumericValues: text and timestamp cells are skipped in sums and means, where pandas would raise or concatenate. Missing values are skipped as pandas does. `Frames.InRange`, `Frames.FilterRange` and `Frames.ColumnRange` skip such cells in the same way, where comparing them with numbers raises `TypeError` in pandas.
- DataLoader.ResetAndRename: a row holds one cell per name. When renaming `index` to `DEPTH` gives two `DEPTH` columns (an index named `DEPTH` beside an `index` curve, or an `index` curve beside a `DEPTH` curve), pandas keeps both columns; the model's row keeps one cell, the renamed one, under `DEPTH`.
- WellLogAnalysis.DefaultDepthRange: a slider built from NaN bounds (a depth column without numbers) is reported as an absent range. The model does not reproduce Streamlit's error.
- Overview.DepthRangeKpi: a depth column without numbers gives `Undefined`, where pandas gives NaN and the card shows "nan".

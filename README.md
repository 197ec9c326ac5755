# predictET: the dashboard's own logic, verified in Dafny

predictET is a single-script Streamlit dashboard. It loads a monthly
evapotranspiration (ET) series for a chosen city and fits three forecasting
models (Prophet, SARIMA and Theta) on the first `monthsKeep` months. Each model is
backtested, and the three forecasts are combined into a median ensemble.
Almost everything in the script is UI, plotting, network reads or calls into the
forecasting library. This project models the part that is the script's own logic:

- **Split planning** (`split_planning.dfy`, module `SplitPlanning`). From the
  series length and the two slider values it derives:
  - the forecast horizon `monthsAvailable - monthsKeep + monthsMore`;
  - the backtest percentages `trp = int(100*monthsKeep/monthsAvailable)` and
    `tep = 100 - trp`;
  - the split of the series into the training window `et_ts[0:monthsKeep]`
    and the held-out months `et_ts[monthsKeep:]`.

  All of this is pure functions over `nat` and `seq`.
- **Median ensemble** (`ensemble.dfy`, module `Ensemble`). `aggregateEnsemble`
  lines the three forecast tables up by row position. It takes the row-wise
  median of `fcst`, `fcst_lower` and `fcst_upper`, and keeps the first table's
  `time` column. A table is the datatype `Forecast<Time>`, with values as `real`.
  The median of three values is `Median3`, characterised by ordering only.
- **Header normalisation** (`series_header.dfy`, module `SeriesHeader`). The ET
  table's columns whose label contains `Unnamed` are dropped. Then `Ensemble ET`
  is renamed `ET`. The source does both steps in place on the data frame, so the
  table is a class `EtData` whose methods reassign its `columns` field. Each
  method is specified by a pure function on `seq<string>`, and the properties
  are lemmas about those functions.
- **City names** (`city_names.dfy`, module `CityNames`). Registry names use `_`
  between words. The selector shows them with spaces, and the chosen name is
  turned back with `_` to look it up.

Python's `int(a / b)` divides in floating point and truncates toward zero. For
the non-negative operands here (and below 2^53) that equals Dafny's `/` on
`int`, which is how `Plan` computes `trp`.

Three facts about the code that the model keeps as they are:

- `trp` truncates, it does not round (app/app.py:135); `Plan` truncates too.
- With truncation `trp` is 0 whenever `100*monthsKeep < monthsAvailable`
  (`PercentBounds`). With at least 10 kept months it is positive for series of up
  to 1000 months (`TrainPercentPositive`).
- `aggregateEnsemble` does not check that the three tables have the same length,
  so `AggregateEnsemble` requires equal lengths.

## Model

| member | source | states |
|---|---|---|
| SplitPlanning.SliderBounds | app/app.py:132-133 | the slider ranges, keep in [10, available] and more in [12, 60]; within them the series has at least 10 months, so the percentage division at line 135 is defined (the horizon bounds are `HorizonBounds`) |
| SplitPlanning.DefaultMonthsKeep | app/app.py:132 | the default of the keep slider, `int((10+available)/2)`, is the floor of the midpoint of 10 and available, and lies within the slider range [10, available]; with the default 36 more months it satisfies `SliderBounds` |
| SplitPlanning.Plan | app/app.py:134-136 | the kept months plus the horizon reach `monthsMore` months past the series end; `trp` is the floor of `100*keep/available` (`trp*available <= 100*keep < (trp+1)*available`); `trp + tep == 100` |
| SplitPlanning.SplitSeries | app/app.py:138-139 | the training window followed by the held-out part is the whole series; the window has `keep` elements, or the whole series when `keep` is past its end (Python's slice clamping) |
| SplitPlanning.HorizonBounds | app/app.py:132-134 | within the slider bounds (10 <= keep <= available, 12 <= more <= 60), the horizon lies between 12 and `available - 10 + 60` |
| SplitPlanning.PercentBounds | app/app.py:135-136 | both percentages lie in [0, 100]; `trp == 100` exactly when `keep == available`; `trp == 0` exactly when `100*keep < available` |
| SplitPlanning.TrainPercentPositive | app/app.py:132-135 | with at least 10 kept months and at most 1000 available, `trp` is positive |
| SplitPlanning.SplitSizes | app/app.py:138-139 | for `keep <= available`, the window has exactly `keep` months and the held-out part `available - keep`; the held-out part is empty exactly when `keep == available` |
| SplitPlanning.SplitPositions | app/app.py:138-139 | element i of the series is element i of the window when `i < keep`, and element `i - keep` of the held-out part otherwise |
| SplitPlanning.PlanExample | app/app.py:134-136 | 120 months, keep 100 and 36 more give horizon 56, `trp` 83 and `tep` 17 |
| Ensemble.Median3 | app/app.py:89-91 | the median of three values is one of them, with at least two values <= it and at least two >= it |
| Ensemble.Median3IsSortedMiddle | app/app.py:89-91 | the median equals the middle element of any sorted arrangement of the three values, the definition of the median of three numbers |
| Ensemble.Median3Permutation | app/app.py:89-91 | any reordering of the three arguments gives the same median |
| Ensemble.Median3Monotone | app/app.py:89-91 | raising any argument never lowers the median |
| Ensemble.PermutationCases | app/app.py:85 | three values equal as a multiset to three others are those values in one of the six orders |
| Ensemble.MedianColumn | app/app.py:85-91 | the row-wise median of three equally long columns has their length, and row i is the median of the three values at row i |
| Ensemble.AggregateEnsemble | app/app.py:84-94 | on three tables with the same number of rows, the ensemble has that many rows; its time column is the first table's; row i of `fcst`, `fcst_lower` and `fcst_upper` is the median of the three inputs' values at row i |
| Ensemble.EnsembleWithinInputs | app/app.py:89-91 | each ensemble value at row i is one of the three inputs' values at row i, and lies between their minimum and maximum |
| Ensemble.EnsemblePermutation | app/app.py:84-94 | reordering the three input tables leaves `fcst`, `fcst_lower` and `fcst_upper` unchanged; the time column is that of whichever table comes first |
| Ensemble.ColumnReordering | app/app.py:85-91 | reordering three columns leaves their row-wise median unchanged |
| Ensemble.EnsembleKeepsBands | app/app.py:89-91 | if every input has `fcst_lower <= fcst <= fcst_upper` on every row, the ensemble does too |
| Ensemble.MedianExample | app/app.py:89 | rows 10, 12, 11 give 11, and rows 10, 12, 20 give 12 rather than their mean |
| SeriesHeader.Contains | app/app.py:128 | the regex search for a literal pattern is true exactly when the pattern occurs at some position of the label |
| SeriesHeader.IsUnnamed | app/app.py:128 | the filter selects a column exactly when `Unnamed` occurs at some position of its label, which needs a capital `U` (`NoCapitalUIsNamed`, `EtIsNamed`) |
| SeriesHeader.DropUnnamed | app/app.py:128 | no remaining label contains `Unnamed`; every remaining label was a column before; every column whose label does not contain `Unnamed` remains |
| SeriesHeader.RenameLabel | app/app.py:129 | a label becomes `ET` exactly when it was `Ensemble ET` or already `ET`; every label other than `Ensemble ET` is unchanged |
| SeriesHeader.RenameColumns | app/app.py:129 | renaming keeps the number and order of columns, relabels each column individually, and leaves no `Ensemble ET` |
| SeriesHeader.NormaliseHeader | app/app.py:128-129 | after both steps no label contains `Unnamed`, none is `Ensemble ET`, and no column is added; which columns survive, under which label and in which order is fixed by `NormaliseHeaderAppend` and `NormaliseHeaderSingle`, and `NormaliseHeaderIdempotent` shows a second pass changes nothing |
| SeriesHeader.EtData.constructor | app/app.py:127 | the table read from the city's CSV has the file's columns |
| SeriesHeader.EtData.DropUnnamedColumns | app/app.py:128 | the in-place drop leaves exactly the columns `DropUnnamed` keeps |
| SeriesHeader.EtData.RenameValueColumn | app/app.py:129 | the in-place rename leaves exactly the labels `RenameColumns` gives |
| SeriesHeader.EtData.Normalise | app/app.py:128-129 | the two steps together give the normalised header, in which no label contains `Unnamed` |
| SeriesHeader.NoCapitalUIsNamed | app/app.py:128 | a label without the letter `U` is never dropped |
| SeriesHeader.EtIsNamed | app/app.py:128-129 | neither `ET` nor `Ensemble ET` is dropped by the `Unnamed` filter |
| SeriesHeader.NormalisedHeaderHasValueColumn | app/app.py:129-130 | a table with an `Ensemble ET` (or `ET`) column has an `ET` column after normalisation, the column the series is built from |
| SeriesHeader.DropUnnamedAppend | app/app.py:128 | dropping distributes over concatenation of column lists: the relative order of surviving columns is kept |
| SeriesHeader.NormaliseHeaderAppend | app/app.py:128-129 | normalisation distributes over concatenation of column lists, so surviving columns keep their relative order |
| SeriesHeader.NormaliseHeaderSingle | app/app.py:128-129 | a single column is dropped if its label contains `Unnamed`, becomes `ET` if it is `Ensemble ET`, and otherwise keeps its label |
| SeriesHeader.NormaliseHeaderIdempotent | app/app.py:128-129 | normalising an already normalised header changes nothing |
| SeriesHeader.NormaliseHeaderKeepsClean | app/app.py:128-129 | a header with no `Unnamed` label and no `Ensemble ET` passes through unchanged |
| SeriesHeader.DropUnnamedKeepsNamed | app/app.py:128 | a header with no `Unnamed` label loses no column |
| CityNames.ReplaceChar | app/app.py:102 | single-character replacement keeps the length and replaces exactly the positions holding the old character |
| CityNames.DisplayName | app/app.py:102 | the displayed name has the registry name's length and contains no `_` |
| CityNames.LookupKey | app/app.py:121 | the lookup key has the chosen name's length and contains no space |
| CityNames.DisplayNames | app/app.py:101-122 | the selector has one entry per registry row and no entry shows an underscore; when no registry name contains a space, choosing entry i looks up registry row i |
| CityNames.LookupKeysOfDisplayNames | app/app.py:102-121 | every space-free registry name in the list is found again from its displayed form |
| CityNames.LookupKeyOfDisplayName | app/app.py:102-121 | for a registry name without spaces, turning its displayed form back gives the registry name |
| CityNames.DisplayNameInjective | app/app.py:102 | distinct registry names without spaces are shown as distinct selector entries |
| CityNames.SpacedNameIsLost | app/app.py:102-121 | a registry name containing a space is never found again by its displayed form |

## Left out

- Map, forecast and raw-data plots, `st.pyplot`/`st.dataframe` output, the background CSS helpers and the display-mode container selection (app/app.py:29-82, 141-168): UI only.
- The network reads of the location registry and the city's CSV (app/app.py:100, 127), and the pandas latitude/longitude lookup with `.iloc[0]` (app/app.py:122): I/O and library queries. `DisplayNames` states only that the lookup key equals the registry name.
- Model fitting and prediction with Prophet, SARIMA and Theta, and `BackTesterSimple` with its error metrics (app/app.py:170-213): foreign library calls doing floating-point numerics. Only the `trp`/`tep` values passed to the backtester are modelled. `displayQualityParams` (app/app.py:96-98) is pandas formatting.
- Floating-point values: forecast values are `real`, so there is no NaN. Pandas' median skips NaN, and the positional concat pads shorter tables with NaN. With unequal lengths, a padded row where one table is short gets the mean of the two remaining values, and one where two tables are short gets the single remaining value; `AggregateEnsemble` instead requires equal lengths.
- `AggregateEnsemble`: the `time` column is taken from the first table by position. In pandas it is aligned on the first table's index, which is the same thing for the default 0..n-1 index the forecasting library returns.
- `Plan`: does not model the floating-point rounding of `100*keep/available`. It is exact for operands below 2^53.
- `Plan`: requires a non-empty series. On an empty series the division at app/app.py:135 raises ZeroDivisionError, which the model does not represent; the keep slider at line 132, with minimum 10 and maximum the series length, has no valid value for a series shorter than 10 months.
- `EtData`: only the column labels are modelled, not the data the dropped columns held. The filter's pattern `Unnamed` has no regular-expression metacharacters, so it is modelled as a literal substring search.
- Slider widgets: their bounds (10 <= keep <= available, 12 <= more <= 60) appear as the precondition `SliderBounds` of the lemmas, not as widgets.

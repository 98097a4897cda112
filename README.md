# Climate dashboard core: forecasting, series parsing and the series cache

This project models three parts of a climate-indicator dashboard:

- **The forecaster** (`app/forecast.py`). It takes a monthly series of `(t, v)` points.
  - With fewer than 24 points, it carries the last value forward for `horizon` months.
  - Otherwise it min-max scales the values, with a scale floor of 1e-6, and builds 12-month training windows.
  - It trains a small sequence model, rolls the model out autoregressively for `horizon` steps and scales the predictions back.
  - Each prediction is dated the first day of the month after the point before it.
- **The parsers** (`app/services/fetchers.py`):
  - `_read_csv_pairs` turns the rows of a local CSV file into points.
  - `fetch_co2` and `fetch_temp` turn the downloaded NOAA CO2 and GISTEMP tables into points.
  - Each of them falls back to its local CSV file when the download fails or yields nothing.
  - Every parser returns its points sorted by timestamp string.
- **The series cache** (`app/state.py`): a class holding a map from indicator key to series.
  - The map starts with nine empty entries.
  - `refresh` overwrites the entries it fetched.
  - `get_series` and `get_all` read the map.

Modules:

- `Wrappers`: `Option` and `Result`.
- `Series`:
  - the `Point` record;
  - Python's string order;
  - the ascending sort by timestamp.
- `IsoDate`:
  - `datetime.fromisoformat` on `YYYY-MM-DD` calendar dates;
  - the `{:04d}` / `{:02d}` formatting;
  - `_next_month_str`.
- `Text`: the `str` operations the parsers use (`strip`, `split(",")`, `split()`, `startswith`, `isspace`).
- `Fetchers`: the parsers.
- `Forecast`: the forecaster.
- `State`: the cache.

The operations that loop in the source are methods with loop invariants:

- `_to_supervised`;
- the rollout and date loops of `forecast_indicator`;
- the row and line loops of the parsers;
- `refresh`.

Most of these methods are proved equal to a function that specifies them, and lemmas state the properties of those functions. `ToSupervised` and `Stamp` state their results directly: the pairs, and the dated points. `Refresh` states the new map as the old map overwritten by the fetched one.

Training is a parameter `train: (inputs, targets) -> (window -> prediction)`. The model proves the forecast's shape for every model `train` could return: its length, its timestamps, its carried-forward values and its window discipline.

The rollout loop does not do what its own comment says. The comment at app/forecast.py:87 reads "append and slide window", and line 88 names the result `new_context`: each prediction is meant to be fed back into the window. But `context` is never reassigned, so line 88 rebuilds every window from the first one (see Findings). `ForecastIndicator` follows the comment, with the prediction fed back. The code as written is modelled alongside it as `ForecastIndicatorAsWritten`. The two agree for a horizon of at most 2.

## Model

| member | source | states |
|---|---|---|
| IsoDate.NextMonthStr | app/forecast.py:36-40 | `_next_month_str` returns a timestamp exactly when its input is an ISO calendar date; otherwise `fromisoformat` raises |
| IsoDate.NextMonthRollover | app/forecast.py:37-40 | the successor of a date in months 1-11 is day 1 of the next month of the same year; the successor of December is 1 January of the next year |
| IsoDate.NextMonthIsNextKey | app/forecast.py:38-40 | the successor of any date is the key of the month one month-index later, whatever the day of the input |
| IsoDate.NextMonthIndex | app/forecast.py:36-40 | the successor is again a date one month later while that month is before year 10000; past December 9999 it is a five-digit year that no longer parses |
| IsoDate.NextMonthOfKey | app/forecast.py:38-40 | within a year, the successor of a month's key is the next month's key |
| IsoDate.NextMonthDecember | app/forecast.py:38-40 | `2023-12-01` is followed by `2024-01-01` |
| IsoDate.May2020Successors | app/forecast.py:36-40 | `2020-05-01` is a date; it is followed by `2020-06-01`, which is followed by `2020-07-01` |
| IsoDate.MonthKeys2020 | app/forecast.py:40 | months 5, 6 and 7 of 2020 format as `2020-05-01`, `2020-06-01` and `2020-07-01` |
| IsoDate.ParseIsoDate | app/forecast.py:37 | the model of `fromisoformat`, restricted to the extended `YYYY-MM-DD` form, accepts only ten-character strings, and only valid calendar dates |
| IsoDate.FormatInt | app/forecast.py:40 | `{n:0wd}` is at least w characters long |
| IsoDate.MonthKey | app/forecast.py:40 | `{year:04d}-{month:02d}-01` is at least ten characters long |
| IsoDate.MonthKeyShape | app/forecast.py:40 | a month key is the padded year, a dash, the month, and `-01` at the end |
| IsoDate.MonthIndexOf | app/forecast.py:37 | a parsed timestamp's month index lies within years 1..9999 |
| IsoDate.FormatIntFixed | app/forecast.py:40 | `{n:0wd}` of a number below 10^w is exactly w digits that read back as n |
| IsoDate.NumeralFormat | app/forecast.py:40 | a string of w digits is what `{:0wd}` prints for the number it denotes |
| IsoDate.DecimalValue | app/forecast.py:40 | the decimal digits of n read back as n |
| IsoDate.ParseFormatRoundTrip | app/forecast.py:37-40 | formatting a valid date and parsing it with `fromisoformat` gives the date back |
| IsoDate.FormatParseRoundTrip | app/forecast.py:37 | a string `fromisoformat` accepts is the formatting of the date it parses to |
| IsoDate.MonthKeyIsFirstOfMonth | app/forecast.py:40 | the key `YYYY-MM-01` is the formatting of day 1 of that month |
| IsoDate.MonthKeyAtParses | app/forecast.py:40 | every month key of years 1..9999 parses as day 1 of that month |
| IsoDate.MonthKeyAtPastRange | app/forecast.py:40 | from year 10000 on a month key is not a date |
| IsoDate.MonthThirteenIsNoDate | app/services/fetchers.py:32-33 | `2020-13-01`, which the seven-character rule can produce, is not a date |
| Forecast.ToSupervised | app/forecast.py:26-33 | yields exactly max(len - window, 0) pairs; pair i is `values[i..i+window]` (of length window) with target `values[i+window]` |
| Forecast.SeqMin | app/forecast.py:56 | `values.min()` is an element no greater than any element |
| Forecast.SeqMax | app/forecast.py:56 | `values.max()` is an element no less than any element |
| Forecast.ScaleOf | app/forecast.py:57 | `max(max_v - min_v, 1e-6)` is strictly positive, at least the spread and at least 1e-6, and equal to one of the two |
| Forecast.SupervisedInputs | app/forecast.py:28-29 | the inputs are `max(len - window, 0)` slices; input i is `values[i:i+window]`, of length window |
| Forecast.SupervisedTargets | app/forecast.py:28-30 | the targets are `max(len - window, 0)` values; target i is `values[i+window]` |
| Forecast.Normalize | app/forecast.py:58 | the normalised value times the scale is the distance from `min_v` |
| Forecast.NormalizeAll | app/forecast.py:58 | `(values - min_v) / scale` keeps the length; each value times the scale is its distance from `min_v` |
| Forecast.Denormalize | app/forecast.py:92 | with a positive scale, `min_v + p * scale` normalises back to `p` |
| Forecast.DenormalizeAll | app/forecast.py:92 | the scaled-back list keeps the length, and with a positive scale each element normalises back to its prediction |
| Forecast.Steps | app/forecast.py:50 | `range(horizon)` (also line 84) runs `horizon` times, and not at all for a negative horizon |
| Forecast.Values | app/forecast.py:55 | `[p.v for p in series]`: one value per point, value i being point i's |
| Forecast.Low | app/forecast.py:56 | `min_v` is the value of some point and no greater than any point's value |
| Forecast.Scale | app/forecast.py:55-57 | the scale of a series is positive |
| Forecast.Scaled | app/forecast.py:55-58 | `values_norm` has one value per point |
| Forecast.ScaledEntry | app/forecast.py:55-58 | `values_norm[k]` is point k's value normalised by `min_v` and `scale` |
| Forecast.Model | app/forecast.py:61-76 | the trained `SmallLSTM` is what training returns for the supervised pairs of the scaled series, `max(n - 12, 0)` of them |
| Forecast.TrainingTarget | app/forecast.py:58-61 | training target i is point i + 12's value, normalised |
| Forecast.TrainingInput | app/forecast.py:58-61 | training input i has 12 entries, entry j being point i + j's value, normalised |
| Forecast.FirstWindow | app/forecast.py:80 | `values_norm[-window:]` has 12 values when the series has at least 12 points |
| Forecast.RollOut | app/forecast.py:84-89 | the fed-back rollout of n steps has n predictions |
| Forecast.DenormalizeNormalize | app/forecast.py:58 | over the reals, the inverse map of line 92, `min_v + p * scale` undoes `(x - min_v) / scale` exactly |
| Forecast.NormalizeDenormalize | app/forecast.py:58 | the forward map undoes the inverse map of line 92 |
| Forecast.SeriesScalingRoundTrip | app/forecast.py:58 | scaling a whole series and scaling it back (line 92) gives the series |
| Forecast.NormalizedInUnitInterval | app/forecast.py:55-58 | every normalised value lies in [0, 1] |
| Forecast.UnitRatio | app/forecast.py:58 | a value between 0 and the scale, divided by the scale, lies in [0, 1] |
| Forecast.ConstantSeriesScale | app/forecast.py:56-58 | a constant series gets the 1e-6 floor as scale and normalises to all zeros |
| Forecast.Slide | app/forecast.py:88 | the slid window keeps its length and ends with the newest prediction |
| Forecast.RollOutFeedsBack | app/forecast.py:80-89 | prediction k of the fed-back rollout is the model applied to a window of the initial length: the last 12 of the initial window followed by the first k predictions; that window ends with prediction k-1 |
| Forecast.RollOutPrefix | app/forecast.py:84-89 | a longer rollout extends a shorter one; step k predicts from the window after k steps |
| Forecast.WindowClosedForm | app/forecast.py:88-89 | the window after k fed-back steps is the initial window followed by the first k predictions, minus its k oldest values |
| Forecast.RollOutSnoc | app/forecast.py:84-89 | one more step appends one prediction and slides the window by it |
| Forecast.Autoregress | app/forecast.py:80-89 | the loop, with the window rebound each step, produces exactly `max(horizon, 0)` fed-back predictions |
| Forecast.RollOutAsWritten | app/forecast.py:80-89 | the rollout as written produces `horizon` predictions |
| Forecast.AutoregressAsWritten | app/forecast.py:80-89 | the loop as written produces the as-written rollout |
| Forecast.AsWrittenWindow | app/forecast.py:80-89 | as written, step k ≥ 1 predicts from the first window minus its oldest value, plus only prediction k-1 |
| Forecast.RollOutsAgreeShort | app/forecast.py:84-89 | for at most two steps the as-written and the fed-back rollouts give the same predictions |
| Forecast.AsWrittenDiffers | app/forecast.py:80-89 | for a model echoing the oldest value of the window 0..11, the third prediction is 2 when predictions are fed back but 1 as written |
| Forecast.ChainedMonthly | app/forecast.py:95-99 | in either date loop (also lines 48-52), a chain of `_next_month_str` steps dates point i at month index of `t0` + i + 1; its last key is a date exactly while it is before year 10000 |
| Forecast.ChainedSnoc | app/forecast.py:98-99 | appending the successor of the last timestamp keeps the chain |
| Forecast.ChainedStuck | app/forecast.py:98 | once the chain reaches a key that is not a date, no longer chain from `t0` exists |
| Forecast.Stamp | app/forecast.py:95-99 | the date loop succeeds exactly when all the months fit; point i then carries value i, and each timestamp is the successor of the one before, the first of `t0` |
| Forecast.CarryForward | app/forecast.py:44-53 | the fallback gives `max(horizon, 0)` points, successive months after the last point, all with the last value; it raises exactly when a month does not fit |
| Forecast.Train | app/forecast.py:55-80 | scaling, windowing and training give the trained model, the last 12 scaled values as first window, `min_v` and `scale` |
| Forecast.TrainedForecast | app/forecast.py:55-92 | the trained path, with the prediction fed back into the window, yields `max(horizon, 0)` values |
| Forecast.TrainedForecastAsWritten | app/forecast.py:55-92 | the trained path as written, with every window rebuilt from the first, yields `max(horizon, 0)` values |
| Forecast.TrainedForecastsAgreeShort | app/forecast.py:80-92 | for a horizon of at most 2 the trained path as written gives the fed-back values |
| Forecast.TrainAndPredict | app/forecast.py:55-92 | scaling, windowing, training, the fed-back rollout and inverse scaling compute `TrainedForecast` |
| Forecast.TrainAndPredictAsWritten | app/forecast.py:55-92 | scaling, windowing, training, the rollout as written and inverse scaling compute `TrainedForecastAsWritten` |
| Forecast.ForecastIndicator | app/forecast.py:43-100 | `horizon` points chained month by month after the last point; the last value carried below 24 points, the scaled-back fed-back predictions otherwise; an error exactly when a month does not fit |
| Forecast.ForecastIndicatorAsWritten | app/forecast.py:43-100 | the same, with the scaled-back predictions of the rollout as written |
| Forecast.FallbackScenario | app/forecast.py:44-53 | ten points ending with 7.2 on 2020-05-01, horizon 2, give 7.2 on 2020-06-01 and 2020-07-01 |
| Series.StrLess | app/services/fetchers.py:41 | Python's string `<`: a proper prefix is less than the longer string, and nothing is less than the empty string |
| Series.StrLessIrreflexive | app/services/fetchers.py:41 | Python's string `<` is irreflexive |
| Series.StrLessTotal | app/services/fetchers.py:41 | Python's string `<` is total |
| Series.StrLessTransitive | app/services/fetchers.py:41 | Python's string `<` is transitive |
| Series.StrLessEqTransitive | app/services/fetchers.py:41 | Python's string `<=` is transitive |
| Series.InsertByTime | app/services/fetchers.py:41 | inserting into a sorted series keeps it sorted and adds exactly the one point |
| Series.SortByTime | app/services/fetchers.py:41 | `sort(key=lambda p: p.t)` (also lines 72 and 112) returns an ascending permutation of its input |
| Text.IsSpace | app/services/fetchers.py:92 | `isspace` holds for space, tab, newline and carriage return, and fails for digits, ASCII letters, `-`, `.` and `*` |
| Text.StartsWith | app/services/fetchers.py:21 | `startswith` (also lines 59 and 88): the string is at least as long as the prefix and begins with it |
| Text.TrimStart | app/services/fetchers.py:24 | `lstrip` drops exactly the leading white space |
| Text.TrimEnd | app/services/fetchers.py:24 | `rstrip` drops exactly the trailing white space |
| Text.Strip | app/services/fetchers.py:24 | `strip()` is the slice after the leading white space; it has white space at neither end and keeps every other character |
| Text.StripPlain | app/services/fetchers.py:24 | text with white space at neither end strips to itself |
| Text.StripAll | app/services/fetchers.py:61 | each field of the list is stripped |
| Text.Split | app/services/fetchers.py:61 | `split(",")` gives at least one field; no field holds a comma, and joining them with commas gives the line back |
| Text.SplitJoin | app/services/fetchers.py:61 | splitting a comma-join of comma-free fields gives the fields back |
| Text.SplitSepFree | app/services/fetchers.py:61 | a line without a comma splits into itself |
| Text.SplitPrefix | app/services/fetchers.py:61 | a comma-free head before the first comma splits off as the first field |
| Text.WordLength | app/services/fetchers.py:96 | a word runs to the first white space |
| Text.SplitWhitespace | app/services/fetchers.py:96 | `split()` gives non-empty words without white space that together are the line's non-space characters |
| Text.SplitWhitespaceJoin | app/services/fetchers.py:96 | `split()` of non-empty space-free words joined by single spaces gives the words back |
| Text.SplitJoinStep | app/services/fetchers.py:96 | a word, a space and more joined words split into the word followed by the split of the rest |
| Text.JoinSpacedCons | app/services/fetchers.py:96 | joining a word before more words puts one space between them |
| Text.SplitWhitespaceWord | app/services/fetchers.py:96 | a word followed by white space or nothing splits off whole as the first word |
| Text.SplitWhitespaceSpace | app/services/fetchers.py:96 | leading white space does not change the words |
| Text.WordLengthPrefix | app/services/fetchers.py:96 | a space-free word followed by white space or nothing is read to its end |
| Text.NonSpaceSnoc | app/services/fetchers.py:96 | appending a character adds it to the non-space characters unless it is white space |
| Text.NonSpaceWord | app/services/fetchers.py:96 | a leading word comes first among the non-space characters |
| Text.NonEmpty | app/services/fetchers.py:96 | `[p for p in parts if p]` keeps exactly the non-empty fields, and a list without an empty field unchanged |
| Text.NonEmptyAppend | app/services/fetchers.py:96 | the filter of two joined lists is the filter of the first followed by the filter of the second, so it keeps the fields in order |
| Fetchers.FilterMap | app/services/fetchers.py:18-40 | an append loop collects at most one point per item |
| Fetchers.FilterMapStep | app/services/fetchers.py:18-40 | one more item adds its point to the collection, if it yields one |
| Fetchers.FilterMapMembers | app/services/fetchers.py:18-40 | a point is collected exactly when some item yields it |
| Fetchers.Flatten | app/services/fetchers.py:91-111 | every point collected by a loop that appends each item's points comes from some item |
| Fetchers.FlattenMembers | app/services/fetchers.py:91-111 | a point is collected exactly when some item makes it |
| Fetchers.CsvDateKey | app/services/fetchers.py:28-36 | without a format, a seven-character date gets `-01` appended unchecked; any other date is kept verbatim exactly when it is an ISO date |
| Fetchers.CsvRowPoint | app/services/fetchers.py:19-40 | a row yields a point only if it has two fields and is not a comment row; the point's key is the stripped date's key and its value is the stripped value parsed |
| Fetchers.CsvRowAccepted | app/services/fetchers.py:19-40 | a row yields a point exactly when it has two fields, is not a comment row, and both its date and its value parse |
| Fetchers.CsvRows | app/services/fetchers.py:18-41 | the points of an existing file are sorted by timestamp |
| Fetchers.CsvPairs | app/services/fetchers.py:12-42 | a missing file gives no points; the result is sorted by timestamp |
| Fetchers.CsvRowLoop | app/services/fetchers.py:18-41 | the row loop and sort compute `CsvRows` |
| Fetchers.ReadCsvPairs | app/services/fetchers.py:12-42 | `_read_csv_pairs` computes `CsvPairs` |
| Fetchers.CsvPairsMembers | app/services/fetchers.py:18-41 | the result holds exactly the points of the accepted rows |
| Fetchers.ShortDateAccepted | app/services/fetchers.py:32-38 | without a format, a row whose stripped date has seven characters yields that date plus `-01` with its parsed value |
| Fetchers.ShortDateUnchecked | app/services/fetchers.py:32-33 | the row `2020-13, 1.5` is accepted with key `2020-13-01` |
| Fetchers.Co2LinePoint | app/services/fetchers.py:59-71 | a CO2 line yields a point exactly when it is non-empty, is not a comment, has at least six comma-separated fields, its year and month fields parse, and its value field parses (field 4, or field 5 when field 4 is `-99.99`) |
| Fetchers.Co2PointFields | app/services/fetchers.py:61-69 | the CO2 point is dated by fields 0 and 1 as `YYYY-MM-01`; its value is field 4, or field 5 when field 4 is `-99.99` |
| Fetchers.Co2KeyIsFirstOfMonth | app/services/fetchers.py:68 | for a calendar month, the CO2 key parses as day 1 of that month |
| Fetchers.Co2Rows | app/services/fetchers.py:57-72 | the downloaded CO2 rows are sorted by timestamp |
| Fetchers.Co2RowsMembers | app/services/fetchers.py:57-72 | the downloaded CO2 rows are exactly the points of the accepted lines |
| Fetchers.Co2Points | app/services/fetchers.py:57-72 | the line loop and sort compute `Co2Rows` |
| Fetchers.FetchCo2 | app/services/fetchers.py:53-77 | the downloaded rows when the download yields any point; otherwise the local CSV's points; sorted either way |
| Fetchers.HeaderEnd | app/services/fetchers.py:86-90 | data starts one past the first `Year` line, or at line 0 when there is none |
| Fetchers.TempStart | app/services/fetchers.py:86-90 | the search loop computes `HeaderEnd` |
| Fetchers.TempFields | app/services/fetchers.py:94-96 | the stripped comma fields when there is a comma; otherwise exactly `split()` of the stripped line |
| Fetchers.IsMissing | app/services/fetchers.py:105 | exactly `***`, `NA` and `-`, the set of line 105, are missing markers; none of them contains a digit |
| Fetchers.Rescale | app/services/fetchers.py:107 | a value above 50 in magnitude is in hundredths, any other value in tenths |
| Fetchers.MonthPoints | app/services/fetchers.py:101-109 | each point of a line comes from a present, non-missing, parsable month column k in 1..12, keyed `year-k-01` and rescaled |
| Fetchers.MonthPointsMembers | app/services/fetchers.py:101-109 | a line yields the point of month column k exactly when column k is present, not missing and parses, and every column before it is missing or parses |
| Fetchers.MonthPointsAbort | app/services/fetchers.py:99-111 | a month value that does not parse ends the line; the months already appended are kept |
| Fetchers.TempLinePoints | app/services/fetchers.py:92-111 | a line yields points only if it is not blank and its year field parses; such a line yields the month loop's points for its fields |
| Fetchers.TempData | app/services/fetchers.py:91-111 | every point of the line loop comes from the points of one of the lines |
| Fetchers.TempDataMembers | app/services/fetchers.py:91-111 | the line loop collects a point exactly when one of the lines yields it |
| Fetchers.TempRows | app/services/fetchers.py:91-112 | the downloaded temperature rows are sorted by timestamp |
| Fetchers.TempRowsMembers | app/services/fetchers.py:91-112 | the downloaded temperature rows are exactly the points of the lines after the header |
| Fetchers.MonthLoop | app/services/fetchers.py:101-109 | the month loop computes `MonthPoints` from month 1 |
| Fetchers.LineMonths | app/services/fetchers.py:92-111 | one pass of the line loop computes `TempLinePoints` |
| Fetchers.TempPoints | app/services/fetchers.py:91-112 | the line loops and sort compute `TempRows` |
| Fetchers.FetchTemp | app/services/fetchers.py:80-117 | the rows after the header when the download yields any point; otherwise the local CSV's points; sorted either way |
| State.InitialCache | app/state.py:13-23 | exactly the nine indicator keys, each with no points |
| State.AppState.constructor | app/state.py:11-23 | the cache starts as `InitialCache` and holds every indicator key |
| State.AppState.Refresh | app/state.py:25-29 | every fetched key reads what was fetched; every other key keeps its points; no indicator key is lost |
| State.Lookup | app/state.py:33 | `cache.get(key, [])`: the entry, or no points for an unknown key |
| State.LookupAfterRefresh | app/state.py:28-33 | after a refresh a fetched key reads what was fetched and any other key what it read before |
| State.Restrict | app/state.py:28-29 | the entries already written by the refresh loop |
| State.RestrictGrow | app/state.py:28-29 | writing one more fetched entry extends what the loop has written |
| State.AppState.GetSeries | app/state.py:31-33 | the cached points of the key, none for an unknown key; in a valid state every indicator key reads its cached points |
| State.AppState.GetAll | app/state.py:35-37 | a map with the same keys and values as the cache; in a valid state it holds every indicator key |

## Left out

- The LSTM, the MSE loss and the 60 epochs of Adam (app/forecast.py:14-23, 62-76) are not modelled. They are floating-point numerics. They are replaced by the parameter `train`, whose result is any function from a window to a prediction.
- float32 rounding is not modelled (app/forecast.py:55). The values are Dafny reals, so the scaling round trip holds exactly; in the source it holds only up to rounding. NaN and infinity are not modelled either.
- Fetchers.Rescale and Forecast.Denormalize: the float64 rounding of `float(val_str) / 100.0` (app/services/fetchers.py:107) and of `min_v + p * scale` (app/forecast.py:92) is not modelled; both are exact over the reals. `float()` also accepts `nan` and `inf` in a temperature or CO2 cell, which `parseReal`, returning a real, cannot give back.
- `torch.set_num_threads(1)` is left out. It only tunes the runtime.
- The network fetch `_fetch_text`, with its retries (app/services/fetchers.py:45-50), is left out.
  - The download is a parameter: its lines, or `None` when it raised.
  - `splitlines()` is assumed to have been applied by the caller.
- File existence checks and reads are parameters: the rows, or `None` for a missing file.
  - `csv.reader` quoting is not modelled; rows come in already split.
  - An exception `csv.reader` raises on a malformed file is not modelled.
- The other fetchers (`fetch_oni`, `fetch_ao` and the rest) and `fetch_all_indicators` are not modelled. They are file and network I/O.
- Python's `int()`, `float()` and `strptime(...).date().isoformat()` are the caller-supplied partial functions `parseInt`, `parseReal` and `strptime`.
- IsoDate.ParseIsoDate: `datetime.fromisoformat` is modelled only on the extended `YYYY-MM-DD` date, with years 1..9999 and leap years checked. Other forms it accepts, such as times and the basic format, count as not a date.
- Fetchers.CsvDateKey: a CSV date that `fromisoformat` accepts in another form, such as `2020-05-01T00:00`, is kept verbatim by the source (app/services/fetchers.py:35-36), but the model drops its row.
- IsoDate.NextMonthStr: on a timestamp in such a form the source returns the next month's key, but the model returns the error.
- Keys need not be dates, and the model keeps those that the source keeps: any seven-character date gets `-01` appended unchecked (`2020/05` becomes `2020/05-01`), and `{year:04d}` writes five digits from year 10000 on and `-005` for year -5.
- Fetchers.CsvDateKey: a `date_fmt` of `""` is falsy in the source and is modelled as no format (`None`). Every caller passes no format.
- Series.SortByTime: the stability of Python's sort is not stated in the contract. The function inserts stably, but only the order and the permutation are proved.
- The in-place `list.sort()` and `list.append` on local lists are modelled as values. Nothing else aliases those lists.
- `asyncio.Lock` in `AppState` is left out. It is concurrency.
- `refresh` gets the fetched map as a parameter, because `fetch_all_indicators` is I/O. `get_series` and `get_all` return value copies, as `list(...)` does.
- Forecast.ForecastIndicator requires a non-empty series. The source indexes `series[-1]` and raises `IndexError` on an empty one (app/forecast.py:46, 95). Its caller answers 404 for an empty series before calling it (app/routers/indicators.py:42-43).
- Forecast.ForecastIndicator follows the fed-back rollout, not the code as written (see Findings). The code as written is `Forecast.ForecastIndicatorAsWritten`, whose rollout is `Forecast.AutoregressAsWritten`.
- Forecast.TrainedForecast uses the fed-back rollout, which app/forecast.py:84-89 intends but does not do. The code as written is `Forecast.TrainedForecastAsWritten`; the two agree for a horizon of at most 2 (`Forecast.TrainedForecastsAgreeShort`).
- Forecast.TrainAndPredict runs the fed-back rollout. The loop as written is `Forecast.TrainAndPredictAsWritten`.
- app/main.py, the routers, the WebSocket hub and the periodic refresh are left out. They are I/O and concurrency.

## Findings

| source | as written | input that shows it | evidently intended | confidence | as-written member | corrected member |
|---|---|---|---|---|---|---|
| app/forecast.py:80-89 | `context` is never reassigned, so every window after the first is `context[1:] + [yhat]`. Only the latest prediction is ever in the window, and the window never advances. | a model that predicts the oldest value of its window, with first window 0, 1, ..., 11 and horizon 3: the third prediction is 1.0 | each window is the previous window slid by the newest prediction, so the third prediction is 2.0 | not executed | Forecast.AsWrittenDiffers | Forecast.Autoregress |

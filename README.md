# NYC traffic safety ETL — a Dafny model

This project models the extract–transform–load pipeline of a repository that
studies how weather affects car accidents in New York City. It proves
properties of that model. The model covers five parts of the pipeline:

- **Weather normaliser.** `WeatherTransformer` in `transform_UPDATED.py`
  handles hourly weather rows:
  - it normalises column names;
  - it coerces the measurement columns to numbers and rounds them;
  - it derives the hour, weekday, rush-hour, night, month and season
    features;
  - it classifies each row with two first-match rule ladders, a weather
    category and a weather severity;
  - it keeps the first row per (borough, datetime).
- **Collision normaliser.** `CollisionsTransformer` in the same file handles
  NYC collision rows:
  - it renames the long Open Data count columns;
  - it builds `crash_datetime` from the date part of `crash_date` and a
    zero-padded `crash_time`;
  - it cleans the borough and filters it to the known boroughs plus
    `UNKNOWN`;
  - it defaults the eight injury and fatality counts to zero;
  - it drops rows without an id or a timestamp, and keeps the first row
    per `collision_id`;
  - it derives `total_involved`, the injury and fatality flags, and a
    five-level severity.
- **Accumulator.** `run_transformation` in `transform_UPDATED.py` maintains
  the master data sets. With a stored master, a new batch is appended after
  it, duplicate natural keys keep their last row so the new batch wins, the
  result is sorted by timestamp, and `len(combined) - len(existing)` is
  reported. Without a stored master, the clean batch is the result.
- **The rest of the repository:**
  - the older analysis normaliser in `src/transform.py`: empty-input
    guards, column defaults, the closed borough map with its `OTHER`
    fallback, and column projection;
  - the deterministic sample generators of `src/extract.py`;
  - the dashboard loaders of `src/load.py`: date conversion, compatibility
    aliases, numeric coercion, and the merge and summary guards;
  - the date handling of `run_pipeline.py`: default dates, partial
    defaulting, `days_range`, command-line mode precedence and the exit
    code.

Rows are maps from column names to cells, and frames are a column list plus
a row list (module `Tables`). Whatever pandas and Python do internally is a
parameter of type `Platform`: number and timestamp parsing, `str()` of a
value, and calendar fields. The model states every result in terms of these
functions.

Referenced collision columns are found after the column names are
normalised and the aliases renamed. Reading a required column that the
frame lacks raises a `KeyError` in pandas; the model returns a `Fail`
result there.

A consequence the model proves (`Pipeline.NoRunSucceeds`): no run of
`run_pipeline` succeeds.

- `run_pipeline.py:138` imports `run_transformation` from
  `src/transform.py`, and that file defines no such function. The model
  uses the definition at `transform_UPDATED.py:269`.
- Even so, the weather frame that `run_extraction` produces has a `date`
  column (`src/extract.py:35-42`) and no `datetime` column.
- `WeatherTransformer.transform` reads `df['datetime']` at
  `transform_UPDATED.py:38`, so every run reaches the handler at
  `run_pipeline.py:254`.
- `run_pipeline` therefore returns False, and `main` exits with code 1
  (`Pipeline.RunMain`).

Where the code and its own comments disagree, the model follows the code:

- `WeatherTransformer.transform` has no guard for an empty input.
- `sort_values` is used without a stable sort, so the order of rows with
  equal timestamps is left open.
- `src/load.py` defines no `run_loading`. The loading phase's outcome is
  therefore a parameter, and the import error it raises counts as success
  (`run_pipeline.py:181-184`).

Modules:
- `Strings` (`strings.dfy`);
- `Tables` (`tables.dfy`);
- `Sequences` (`sequences.dfy`: keep-first and keep-last de-duplication, and
  sorting by rank);
- `WeatherTransformer` (`weather.dfy`);
- `CollisionsTransformer` (`collisions.dfy`);
- `Accumulation` (`accumulation.dfy`);
- `AnalysisTransform` (`analysis_transform.dfy`, for `src/transform.py`);
- `Extraction` (`extract.dfy`);
- `Loading` (`load.dfy`);
- `Pipeline` (`pipeline.dfy`).

## Model

| member | source | states |
|---|---|---|
| Strings.NormalizeColumnName | transform_UPDATED.py:29-35 | A normalised column name is the stripped name, character by character lower-cased, with each blank turned into `_`; so it has no blank, no upper-case letter and no surrounding whitespace, and is never longer than the original. |
| Strings.StripLower | transform_UPDATED.py:29-35 | Lower-casing before or after stripping gives the same text. |
| Strings.NormalizeIdempotent | transform_UPDATED.py:162-167 | Normalising a normalised name changes nothing. |
| Strings.CleanUpper | transform_UPDATED.py:186-187 | `str.upper().str.strip()` is the stripped text upper-cased character by character, so it has no lower-case letter and no surrounding whitespace. |
| Strings.StripUpper | transform_UPDATED.py:186-187 | Upper-casing before or after stripping gives the same text. |
| Strings.CleanUpperIdempotent | transform_UPDATED.py:77-79 | Cleaning a cleaned borough again changes nothing. |
| Strings.Strip | transform_UPDATED.py:240 | `strip()` keeps a contiguous middle part of the text that neither starts nor ends with whitespace, and cuts only whitespace before and after it; all-whitespace text becomes empty. |
| Strings.Before | transform_UPDATED.py:239 | `split(c)[0]` is the longest prefix without `c`: the whole text when `c` does not occur, otherwise the part before the first `c`. |
| Strings.StripFixed | transform_UPDATED.py:240 | Text without surrounding whitespace is unchanged by `strip()`. |
| Tables.ToNumeric | transform_UPDATED.py:52 | `to_numeric(errors='coerce').fillna(0)` maps a null cell to 0 and keeps a number. |
| Tables.Trunc | transform_UPDATED.py:202 | `astype(int)` truncates toward zero: the result lies within one of the value, on the side of zero. |
| Tables.RoundHalfEven | transform_UPDATED.py:54-61 | pandas `round` picks the nearest integer and, on a tie, the even one. |
| Tables.WithColumn | src/transform.py:91 | Assigning a column sets it in every row, adds its name once, keeps the row count and changes no other cell. |
| Tables.WithDefault | src/transform.py:28-29 | A missing column is added with the default value, and an existing one is kept as it is; nothing else changes. |
| Tables.Available | src/transform.py:42-43 | The available columns are the wanted ones that are present, in the wanted order. |
| Tables.AvailableAll | src/transform.py:109-111 | When every wanted column is present, the projection is the whole wanted list. |
| Tables.Project | src/transform.py:45 | Projection keeps every row, the available columns, and every cell of those columns. |
| Tables.CoerceColumns | src/load.py:43-45 | The coercion loop computes the specified coercion. |
| Tables.CoercedCells | src/load.py:39-45 | Coercion turns each listed and present column into numbers (unparsable values become 0), keeps the column list and the row count, and leaves every other column unchanged. |
| Tables.AddCompatColumns | src/load.py:35-37 | The aliasing loop computes the specified aliasing. |
| Tables.AliasedOnlyAdds | src/load.py:78-81 | Aliasing only adds columns: every original column and cell is kept and the row count is unchanged. |
| Tables.AliasedCopies | src/load.py:34-37 | When a pair's new name is present, its old name is absent and no other pair writes that old name, the old column is a cell-by-cell copy of the new one. |
| Tables.DeriveColumn | src/load.py:19-22 | A column conversion succeeds exactly when every row converts; it then sets the target column from the source and leaves every other cell alone. |
| Tables.ToDate | src/transform.py:23 | `.dt.date` of a column converts exactly when `to_datetime` accepts the value. |
| Tables.Matching | transform_UPDATED.py:180 | The columns that resolve to a wanted name are exactly the present columns whose normalised, renamed name equals it. |
| Tables.RenamedAvoids | transform_UPDATED.py:169-180 | A name the mapping never produces cannot be the result of a rename of any other name. |
| Tables.Resolve | transform_UPDATED.py:50-51 | An optional column is absent when no column matches and found when exactly one does; two matches are an error. |
| Tables.Require | transform_UPDATED.py:38 | A required column resolves exactly when one column matches; none is `MissingColumn` (pandas' `KeyError`) and several are `DuplicateColumn`. |
| Tables.Reading | transform_UPDATED.py:50-52 | A measurement is read exactly when its column exists, and then it is the cell coerced to a number, with a missing cell read as 0. |
| Sequences.DedupFirst | transform_UPDATED.py:82 | `drop_duplicates(keep='first')` keeps one row per key, covers every key, keeps the first row of each key and keeps the input order. |
| Sequences.KeepFirst | transform_UPDATED.py:211 | The keep-first loop computes the keep-first de-duplication. |
| Sequences.DedupLast | transform_UPDATED.py:301-304 | `drop_duplicates(keep='last')` keeps one row per key, covers every key, keeps the last row of each key and adds no row. |
| Sequences.Filter | transform_UPDATED.py:189 | A boolean mask keeps exactly the rows that satisfy it, in order. |
| Sequences.Insert | transform_UPDATED.py:307 | Inserting into a sorted sequence keeps it sorted and adds exactly the new row. |
| Sequences.SortByRank | transform_UPDATED.py:341 | `sort_values` yields a sorted permutation of its input. |
| Sequences.DedupFirstOfUnique | transform_UPDATED.py:210-211 | A batch without repeated keys is unchanged by keep-first de-duplication. |
| Sequences.DedupLastOfUnique | transform_UPDATED.py:335-338 | A batch without repeated keys is unchanged by keep-last de-duplication. |
| Sequences.LastForLaterWins | transform_UPDATED.py:298-304 | In `existing ++ incoming`, the last row of a key the new batch holds is the new batch's last row for that key. |
| Sequences.LastForEarlierKept | transform_UPDATED.py:332-338 | A key only the stored master holds keeps the master's last row. |
| WeatherTransformer.GetSeason | transform_UPDATED.py:88-95 | December to February is winter, March to May spring, June to August summer, and every other value is fall: each in both directions. |
| WeatherTransformer.SeasonsAreShiftedQuarters | transform_UPDATED.py:88-95 | For a real month the season is the calendar quarter shifted back one month, an independent reformulation of the ladder. |
| WeatherTransformer.CategorizeWeather | transform_UPDATED.py:98-117 | Each category holds exactly when its rule is the first to fire: snow, then the rain total, then visibility under 5000, then wind over 30, else clear. |
| WeatherTransformer.AssessSeverity | transform_UPDATED.py:120-145 | The severity follows the first matching threshold: snow over 5 or rain over 10 is HEAVY, rain over 5 MODERATE, visibility under 1000 SEVERE and under 3000 MODERATE, wind over 50 SEVERE and over 30 MODERATE, otherwise LIGHT. |
| WeatherTransformer.SnowBeforeRain | transform_UPDATED.py:99-109 | Snowfall 2 with rain 1 is SNOW. |
| WeatherTransformer.MissingVisibilityNeverFog | transform_UPDATED.py:111-112 | Without a visibility column (read as 10000) a row is never FOG. |
| WeatherTransformer.ClassifiersAgree | transform_UPDATED.py:98-145 | The two ladders agree: clear weather is LIGHT, HEAVY weather is snow or rain, SEVERE weather is never clear. |
| WeatherTransformer.RushHourIsNeverNight | transform_UPDATED.py:67-68 | No hour is both a rush hour and a night hour. |
| WeatherTransformer.ResolveColumns | transform_UPDATED.py:38-52 | A raw weather frame without a `datetime` column is rejected with `MissingColumn("datetime")`; the visibility column is absent exactly when no column normalises to `visibility`. |
| WeatherTransformer.RoundTo2 | transform_UPDATED.py:55-58 | `round(2)` moves a value by at most 0.005 and lands on a whole number of hundredths; a missing value stays missing. |
| WeatherTransformer.RoundToHundred | transform_UPDATED.py:61 | Rounding visibility to hundreds moves it by at most 50 and lands on a multiple of 100; a missing value stays missing. |
| WeatherTransformer.CleanRow | transform_UPDATED.py:38-79 | A cleaned row has the zone-converted timestamp; its hour and season come from it; the rush-hour and night flags hold exactly for the listed hours, and the weekend flag exactly for weekday 5 or later; a failed parse gives no hour and the season FALL; the month and day name come from the timestamp; the readings are the coerced columns, with temperature and wind rounded to hundredths and visibility to hundreds; the category and severity come from the two ladders applied to those readings; a text borough is upper-cased and stripped. |
| WeatherTransformer.FrameWithoutVisibilityHasNoFog | transform_UPDATED.py:46-61 | A raw frame with no visibility column yields no FOG record at all. |
| WeatherTransformer.CleanRows | transform_UPDATED.py:63-79 | Row cleanup is row by row: one cleaned record per raw row, in order. |
| WeatherTransformer.CleanEach | transform_UPDATED.py:63-79 | The per-row loop computes the row-by-row cleanup. |
| WeatherTransformer.Transform | transform_UPDATED.py:24-85 | `transform` returns the specified clean-and-deduplicate result, including its `KeyError` case. |
| WeatherTransformer.CleanWeatherDeduplicates | transform_UPDATED.py:82 | The weather batch has one row per (borough, datetime), covers every key of the cleaned rows, keeps the first row of each and the input order, and is no longer than the input. |
| WeatherTransformer.MissingDatetimeFails | transform_UPDATED.py:38 | A frame whose columns never normalise to `datetime` makes `transform` fail. |
| CollisionsTransformer.DetermineSeverity | transform_UPDATED.py:253-262 | FATAL exactly when someone was killed, SEVERE for 3 or more injured, MODERATE for 1 or 2, MINOR when only others were involved, NONE otherwise: each in both directions. |
| CollisionsTransformer.FatalOutranksInjuries | transform_UPDATED.py:254-255 | A collision with 5 injured and 1 killed is FATAL. |
| CollisionsTransformer.NoInjuryMeansNobodyCounted | transform_UPDATED.py:214-228 | With non-negative counts, NONE holds exactly when the total involved is 0, and MINOR means nobody was injured or killed but someone was involved. |
| CollisionsTransformer.PadHour | transform_UPDATED.py:241-242 | A time is padded with one leading `0` exactly when it has a `:` and a one-character hour; the padded hour is never one character long. |
| CollisionsTransformer.PadsOneDigitHour | transform_UPDATED.py:241-242 | "9:15" becomes "09:15". |
| CollisionsTransformer.KeepsTwoDigitHour | transform_UPDATED.py:241 | "10:30" is left unchanged. |
| CollisionsTransformer.KeepsTimeWithoutColon | transform_UPDATED.py:241 | "915" is left unchanged. |
| CollisionsTransformer.MidnightIsClean | transform_UPDATED.py:240-243 | The default time "00:00" survives stripping and padding unchanged, so a row without a time column gets it as is. |
| CollisionsTransformer.PadHourIdempotent | transform_UPDATED.py:241-242 | Padding a padded time changes nothing. |
| CollisionsTransformer.ResolveColumns | transform_UPDATED.py:169-180 | The resolved `collision_id` is a present column that renames to `collision_id`; without one the batch fails. |
| CollisionsTransformer.DatePart | transform_UPDATED.py:239 | The date part is the whole rendered `crash_date` when it has no `T`, and otherwise exactly the text before its first `T`. |
| CollisionsTransformer.TimePart | transform_UPDATED.py:240-243 | A missing `crash_time` column gives "00:00"; otherwise the stripped time is kept, or prefixed with `0` exactly when it has a `:` after a one-character hour. |
| CollisionsTransformer.CrashDatetimes | transform_UPDATED.py:234-250 | One timestamp per row, in order: the parse of that row's date part and padded time. |
| CollisionsTransformer.ParseCrashDatetimes | transform_UPDATED.py:234-250 | The parse loop appends exactly the specified timestamps. |
| CollisionsTransformer.CleanBorough | transform_UPDATED.py:186-187 | A null borough becomes UNKNOWN, text is upper-cased and stripped, and any other value has no string form. |
| CollisionsTransformer.Count | transform_UPDATED.py:198-202 | A missing count column or a missing cell counts 0; otherwise the count is the coerced number truncated toward zero. |
| CollisionsTransformer.BuildRecord | transform_UPDATED.py:183-228 | A record carries the row's id, its timestamp and its cleaned borough; its eight counts are the coerced integer counts of their own columns; a frame without a borough column gives no borough; the injury and fatality flags hold exactly for a positive count; its total is the sum of the eight counts; its severity comes from the ladder. |
| CollisionsTransformer.CleanRows | transform_UPDATED.py:183-202 | One record per raw row, in order, built with that row's own timestamp. |
| CollisionsTransformer.BuildRecords | transform_UPDATED.py:183-202 | One record per row, built with that row's own timestamp. |
| CollisionsTransformer.RecordsAreClean | transform_UPDATED.py:183-202 | Building records from the parsed timestamp column is cleaning each row on its own. |
| CollisionsTransformer.CleanResolved | transform_UPDATED.py:183-211 | The cleanup, filters and keep-first loop compute the keep-first de-duplication of the surviving records. |
| CollisionsTransformer.Transform | transform_UPDATED.py:155-231 | `transform` returns the specified result, including the failure for a missing id column. |
| CollisionsTransformer.CleanCollisionsFilters | transform_UPDATED.py:186-210 | Every output record passes the borough filter and has an id and a timestamp. |
| CollisionsTransformer.CleanCollisionsDeduplicates | transform_UPDATED.py:211 | The output has one record per id, covers every id that survives the filters, keeps the first record of each id and the input order, and is no longer than the input. |
| CollisionsTransformer.RowSurvival | transform_UPDATED.py:186-210 | A row survives exactly when its borough is null or cleans to a known borough or UNKNOWN, its id is not null, and its timestamp parses. |
| CollisionsTransformer.MissingIdFails | transform_UPDATED.py:210 | A frame without a `collision_id` column fails, as `dropna(subset=...)` raises. |
| Accumulation.Accumulate | transform_UPDATED.py:290-321 | Without a master the batch is returned unchanged and nothing is reported; with one, the result is sorted, is a permutation of the keep-last de-duplication of master plus batch, and the report is the length difference. |
| Accumulation.MergeKeys | transform_UPDATED.py:298-304 | A merged master has no repeated key, its keys are the union of the old and new keys (so its length is the size of that union), and each row is the last one for its key in master plus batch. |
| Accumulation.MergeSupersedes | transform_UPDATED.py:301-304 | A key in the new batch takes the batch's last row for it; any other key keeps the stored master's last row. |
| Accumulation.NewRecordsAreNewKeys | transform_UPDATED.py:309 | For a master without repeated keys, `new_records` counts exactly the batch keys the master lacked. |
| Accumulation.RemergeAddsNoRow | transform_UPDATED.py:298-307 | Merging the same batch twice brings in no row that the first merge did not have. |
| Accumulation.RemergeKeepsRows | transform_UPDATED.py:298-307 | Merging the same batch twice loses no row of the first merge. |
| Accumulation.MergeIdempotent | transform_UPDATED.py:332-343 | Re-merging the same batch gives the same rows and keys and reports 0 new records. |
| Accumulation.EmptyBatchKeepsRows | transform_UPDATED.py:298-309 | Merging an empty batch into a master without repeated keys keeps its rows and reports 0. |
| Accumulation.SortedRearrangementUnique | transform_UPDATED.py:307 | Two sorted rearrangements of the same rows with distinct timestamps are equal: only ties are left open. |
| Accumulation.EmptyBatchIsNoOp | transform_UPDATED.py:298-307 | An empty batch leaves a sorted master with distinct keys and timestamps exactly as it was. |
| Accumulation.BatchDedup | transform_UPDATED.py:301-304 | A concrete batch without repeated keys is unchanged by keep-last de-duplication. |
| Accumulation.TwoRunDedup | transform_UPDATED.py:335-338 | Re-delivering record A with a new value keeps the new value. |
| Accumulation.BatchIsSorted | transform_UPDATED.py:341 | That concrete batch is sorted with distinct timestamps. |
| Accumulation.TwoRunExample | transform_UPDATED.py:332-343 | A master {A} merged with a batch {A', B} is exactly [A', B], with 1 new record. |
| Accumulation.NegativeCountExample | transform_UPDATED.py:343 | A master holding A twice, merged with nothing, reports -1 new records. |
| Accumulation.RunTransformation | transform_UPDATED.py:269-384 | `run_transformation` succeeds exactly when both transformers do; a weather failure is its error; without a master each result is the clean batch, and with one each result is a merge of master and clean batch on its natural key. |
| AnalysisTransform.ParseWeatherDates | src/transform.py:21-25 | The date step fails exactly when `to_datetime` raises; it keeps the rows and other cells, parses an existing `date`, or derives it from `datetime` when absent. |
| AnalysisTransform.DefaultWeatherColumns | src/transform.py:27-39 | The borough defaults to UNKNOWN and the condition to Clear only where absent; the listed numeric columns are coerced to numbers and all else is unchanged. |
| AnalysisTransform.FillWeatherColumns | src/transform.py:27-45 | After defaults and projection the columns are the final list filtered to those present; the borough, condition, date and numeric cells are as specified. |
| AnalysisTransform.FinishWeather | src/transform.py:27-48 | The steps after the date step give the projected columns with the default, date and numeric cells of the input rows. |
| AnalysisTransform.TransformWeatherData | src/transform.py:11-52 | An empty input, or a date that fails to parse, gives an empty frame; otherwise every row is kept, the columns are the final list filtered to those present, and each cell is as specified. |
| AnalysisTransform.MapBorough | src/transform.py:78-88 | The borough map always yields one of the five boroughs or OTHER, and changes a value exactly when it is neither of those. |
| AnalysisTransform.MapBoroughFacts | src/transform.py:79-88 | STATEN IS maps to STATEN ISLAND, the map is idempotent, and STATEN IS is the only value it maps to a different borough. |
| AnalysisTransform.MissingBoroughIsOther | src/transform.py:72-88 | A missing borough column becomes UNKNOWN and ends as OTHER. |
| AnalysisTransform.UnknownIsOther | src/transform.py:88 | UNKNOWN maps to OTHER. |
| AnalysisTransform.CollisionDates | src/transform.py:64-69 | `date` is the `.dt.date` of `crash_date`, or today without one; the step fails exactly when a date raises, and other cells are kept. |
| AnalysisTransform.CleanBoroughs | src/transform.py:71-88 | Each row's borough becomes the mapped, cleaned string of its borough (or UNKNOWN); nothing else changes. |
| AnalysisTransform.CountColumn | src/transform.py:94-102 | A count column holds the coerced count where present and 0 where absent; nothing else changes. |
| AnalysisTransform.FillCasualties | src/transform.py:94-102 | After both count steps, killed and injured are the coerced counts; nothing else changes. |
| AnalysisTransform.FillInjuries | src/transform.py:90-102 | Every row has `collisions = 1`, with the killed and injured counts as specified. |
| AnalysisTransform.FillCounts | src/transform.py:90-106 | Adds the counts and the weather condition (Clear where absent) and changes nothing else. |
| AnalysisTransform.CleanAndCount | src/transform.py:71-106 | After the borough and count steps every final column exists with its specified cell, and the date is kept. |
| AnalysisTransform.FinishCollisions | src/transform.py:71-116 | The output has exactly the six final columns, every row, and each cell as specified. |
| AnalysisTransform.TransformCollisionData | src/transform.py:54-120 | An empty input, or a date that fails to parse, gives an empty frame; otherwise every row is kept with exactly the six final columns: the date, the mapped borough, `collisions = 1`, the coerced counts and the weather condition. |
| Extraction.ZeroPad | src/extract.py:122 | `{i:04d}` is all digits and at least the width long. |
| Extraction.ZeroPadWidth | src/extract.py:122 | A number below 10^w pads to exactly w digits. |
| Extraction.ZeroPadInjective | src/extract.py:122 | Distinct numbers pad to distinct strings. |
| Extraction.ZeroPadExamples | src/extract.py:122 | 7 pads to "0007", and 12345 keeps all five digits. |
| Extraction.StampInjective | src/extract.py:122 | Two calendar dates with the same `%Y%m%d` stamp are the same date, and the stamp has 8 characters. |
| Extraction.DateRange | src/extract.py:29 | `pd.date_range` yields one day per day of the inclusive range, in order, and nothing when the start is after the end. |
| Extraction.ExtractionRange | src/extract.py:24-27 | A missing end is today and a missing start is 30 days earlier, so the default range has 31 days; given dates are kept. |
| Extraction.SampleTemperature | src/extract.py:38 | The sample temperature lies in 40..59. |
| Extraction.SampleWindSpeed | src/extract.py:41 | The sample wind speed lies in 5..19. |
| Extraction.SamplePrecipitation | src/extract.py:39 | Precipitation is 0 except on rain days, and never above 0.9. |
| Extraction.WeatherRowColumns | src/extract.py:35-42 | A sample weather row has exactly the six sample columns. |
| Extraction.WeatherRowCells | src/extract.py:36-40 | A sample weather row has its date and borough; the condition is Rain exactly on days divisible by 4 and Clear otherwise; precipitation is 0 on other days. |
| Extraction.WeatherRowReadings | src/extract.py:38-41 | The temperature and wind cells are numbers in their ranges. |
| Extraction.WeatherDayAt | src/extract.py:34-42 | A day yields five rows, the b-th for the b-th borough. |
| Extraction.WeatherSampleCount | src/extract.py:29-44 | The sample weather frame has 5 rows per day. |
| Extraction.WeatherSampleAt | src/extract.py:33-42 | Row 5k+b of the frame is day k's row for borough b. |
| Extraction.AppendWeatherDay | src/extract.py:34-42 | The inner loop appends exactly the day's five rows. |
| Extraction.SampleWeather | src/extract.py:32-44 | The nested loops build exactly the specified sample frame. |
| Extraction.ExtractWeather | src/extract.py:18-52 | `WeatherExtractor.extract` returns the sample frame of its (defaulted) date range. |
| Extraction.SampleWeatherIsNotHourly | src/extract.py:35-42 | The sample weather frame, having no `datetime` column, always fails the hourly weather transformer. |
| Extraction.PlainName | transform_UPDATED.py:29-35 | A lower-case snake_case name is its own normal form. |
| Extraction.DailyCount | src/extract.py:117 | Each day has between 80 and 149 sample collisions. |
| Extraction.CollisionRowCells | src/extract.py:122-126 | Row i of a day has id `COL_<yyyymmdd>_<i:04d>`, crash date `<yyyy-mm-dd>T00:00:00`, the (i mod 5)-th borough, one injured exactly for i divisible by 10 and one killed exactly for i divisible by 100. |
| Extraction.CollisionRowColumns | src/extract.py:121-131 | A sample collision row has exactly the sample columns. |
| Extraction.KilledImpliesInjured | src/extract.py:125-126 | A sample collision with a fatality also has an injury. |
| Extraction.CollisionDayAt | src/extract.py:119-131 | A day yields exactly its daily count of rows, row i being the i-th generated row. |
| Extraction.CollisionSampleCount | src/extract.py:115-131 | The frame's length is the sum of the daily counts, between 80 and 149 per day. |
| Extraction.CollisionSampleAt | src/extract.py:115-131 | A day's rows follow the rows of all earlier days, in order. |
| Extraction.SampleDayIds | src/extract.py:119-122 | Ids are unique within a day. |
| Extraction.SameDayIds | src/extract.py:122 | On one day, equal ids below 10000 mean the same index. |
| Extraction.IdStamp | src/extract.py:122 | An id carries its date's stamp at characters 4 to 11. |
| Extraction.SampleIdsOfDates | src/extract.py:122 | Ids of different calendar dates differ. |
| Extraction.SampleIdsFromDates | src/extract.py:115-122 | Every id in the frame is the id of one of the range's dates. |
| Extraction.SampleIdsUnique | src/extract.py:110-131 | Over a range of distinct calendar dates, every sample collision id is unique. |
| Extraction.AppendCollisionDay | src/extract.py:119-131 | The inner loop appends exactly the day's rows. |
| Extraction.SampleCollisions | src/extract.py:110-135 | The nested loops build exactly the specified sample frame. |
| Extraction.CollisionsFor | src/extract.py:80-96 | A 200 response with rows is used as it is; any other status, an empty response or a failed call gives the sample frame of the range. |
| Extraction.ExtractCollisions | src/extract.py:62-104 | `CollisionExtractor.extract` returns the API data or the sample frame for its (defaulted) range. |
| Extraction.RunExtraction | src/extract.py:137-150 | `run_extraction` returns the weather frame, then the collisions frame, both for the same range. |
| Loading.CollisionLoadWellFormed | src/load.py:17-45 | The collision loader's date, alias and numeric names do not collide. |
| Loading.WeatherLoadWellFormed | src/load.py:64-87 | The weather loader's date, alias and numeric names do not collide. |
| Loading.DatedFrame | src/load.py:16-22 | The date step fails exactly when `to_datetime` raises; it parses `date` and the second date column where present, derives `date` only when absent, and changes nothing else. |
| Loading.LoadMaster | src/load.py:13-54 | A loader's body computes the specified load. |
| Loading.LoadCollisionData | src/load.py:10-54 | `load_collision_data` is the load with the collision configuration. |
| Loading.LoadWeatherData | src/load.py:57-96 | `load_weather_data` is the load with the weather configuration. |
| Loading.LoadedEmptyOnError | src/load.py:49-54 | A missing file or a raising date conversion gives an empty frame; otherwise a non-empty file gives a non-empty frame. |
| Loading.LoadedCells | src/load.py:39-45 | Loading keeps every row and column, coerces the listed numeric columns that are present, and leaves every other original column unchanged. |
| Loading.LoadedDates | src/load.py:63-69 | `date` exists after loading when either date column did; it is parsed, or derived from the parsed second column when absent. |
| Loading.LoadedAliases | src/load.py:34-45 | An old name absent from the file becomes a copy of its new name's column, coerced when it is numeric. |
| Loading.MergeWeatherCollisionData | src/load.py:99-128 | An empty input gives an empty merge; otherwise hourly weather is aggregated first and then joined. |
| Loading.ColumnSumNonNegative | src/load.py:141-142 | Summing non-negative counts gives a non-negative total. |
| Loading.Instants | src/load.py:143-144 | The instants are exactly those of the rows whose date is not NaT. |
| Loading.Min | src/load.py:143 | `min()` of a non-empty column is its least element; an empty one has none. |
| Loading.Max | src/load.py:144 | `max()` of a non-empty column is its greatest element; an empty one has none. |
| Loading.DateBounds | src/load.py:143-144 | The bounds exist exactly when the frame has a `date` column. |
| Loading.BoundsOrdered | src/load.py:143-144 | With a `date` column the bounds are both NaT, exactly when every date is NaT, or both timestamps with every date between them. |
| Loading.DaySpan | src/load.py:154 | `days` is NaN exactly when a bound is NaT; otherwise it is one more than the whole days elapsed between the two instants. |
| Loading.HalfDayApartIsOneDay | src/load.py:154 | Two instants half a day apart span one day, even when they fall on different dates. |
| Loading.DailyRate | src/load.py:156 | The daily rate is the total over the days, or 0 when `days` is NaN or not positive. |
| Loading.BoroughCells | src/load.py:145 | The borough list holds exactly the boroughs of the rows. |
| Loading.DataSummary | src/load.py:131-158 | Empty collisions give `{}`; otherwise the total is the row count, the boroughs are the row boroughs, every parsed date lies within the bounds, and `days` and the average exist exactly with a `date` column: a count of at least 1 with the average as total over days, or NaN with average 0 when every date is NaT. |
| Pipeline.DaysBeforeMonth | run_pipeline.py:84-86 | The days before month m of a year number between 28(m-1) and 31(m-1). |
| Pipeline.MonthLength | run_pipeline.py:84-86 | Every month has 28 to 31 days. |
| Pipeline.SameMonthDistance | run_pipeline.py:86 | Within a month, the distance between day numbers is the distance between days of month. |
| Pipeline.NextMonthDistance | run_pipeline.py:86 | The first days of consecutive months are as many day numbers apart as the earlier month has days. |
| Pipeline.Selection | run_pipeline.py:296-314 | `--historical` wins with 2024-01-01..2024-01-30, then `--test` with 2024-01-01..2024-01-02, then any non-empty explicit date (both passed on), and otherwise no dates. |
| Pipeline.SelectDates | run_pipeline.py:296-314 | `main`'s if/elif chain computes the specified selection. |
| Pipeline.DefaultDates | run_pipeline.py:37-45 | The default end is yesterday and the default span is exactly `days` days. |
| Pipeline.Filled | run_pipeline.py:72-79 | A given date is never overwritten; only a missing one is filled from the defaults. |
| Pipeline.FillDates | run_pipeline.py:72-79 | The reassignment code computes the specified filling. |
| Pipeline.DaysRange | run_pipeline.py:84-86 | `days_range` exists exactly when both dates parse, and is end - start + 1. |
| Pipeline.FixedModeSpans | run_pipeline.py:296-302 | `--historical` spans 30 days and `--test` 2 days. |
| Pipeline.DefaultRunSpan | run_pipeline.py:37-45 | With no dates the run spans `days` days ending yesterday, and extraction sees that many days. |
| Pipeline.LoadPhase | run_pipeline.py:167-190 | The database entry is Skipped exactly without a database, and Failed exactly when loading returned false or raised. |
| Pipeline.Loading | run_pipeline.py:167-190 | The loading code computes the specified status. |
| Pipeline.ExtractAndTransform | run_pipeline.py:89-161 | Extraction and transformation succeed exactly when both extracted frames pass their transformers. |
| Pipeline.RunPipeline | run_pipeline.py:48-272 | `run_pipeline` returns True exactly when both dates parse and both frames transform; loading never decides it. |
| Pipeline.NoRunSucceeds | run_pipeline.py:137-161 | No run succeeds, whatever the dates, the API response, the masters or the platform. |
| Pipeline.RunMain | run_pipeline.py:324-358 | The exit code is 0 exactly when the run succeeds, and so it is always 1. |

## Left out

- I/O, and values the code gets from the outside world:
  - Reading and writing CSV master, backup and raw files, and summary and error logs, are left out.
  - A dashboard loader's file is an `Option` parameter, where None means missing or unreadable; the loader catches both.
  - A transformation master is an `Option` of parsed records, where None means the file does not exist. A master that exists but cannot be read, or whose timestamp column does not parse, raises in `transform_UPDATED.py:292-295` and `326-329`; that failure is not modelled.
  - Logging, `print`, `os.makedirs`, Streamlit and its caching, and `dashboard/app.py` are left out.
  - The HTTP request to NYC Open Data is an `ApiOutcome` parameter.
  - `datetime.now()` is a `today` day number passed in.
- Library behaviour is taken as given through the `Platform` parameter, not restated in the model:
  - `pd.to_datetime` and its time-zone conversion;
  - `pd.to_numeric` of text;
  - `str()` of a non-text value;
  - `.dt.date` and calendar lookup.

  Nothing ties `Platform.calendar` to `Pipeline.Ordinal`.
- Numbers are exact reals rather than binary floats. The `0.1 *` precipitation factor and float rounding are left out; rounding is modelled as exact half-to-even.
- Case mapping (`str.lower`, `str.upper`) covers ASCII letters only; other characters are left unchanged.
- Other parts of the code are not modelled:
  - the coordinate columns `latitude` and `longitude` (`transform_UPDATED.py:205-207`);
  - the weather `date` column's conversion (`transform_UPDATED.py:41-42`): a `WeatherRecord` has no `date` field, since no modelled step reads it back (the modelled extractor's weather frames lack `datetime` and fail before this step);
  - the raw columns both transformers pass through unchanged: a `WeatherRecord` or `CollisionRecord` holds only the columns the code derives or reads again;
  - the sample collisions' factor, vehicle and coordinate cells (`src/extract.py:127-130`), which are not among the modelled row facts;
  - the statistics printed in `run_pipeline.py`, and its summary and per-day rates.
- `run_pipeline.py:118-131`: the second extraction attempt is not modelled. The handler is reachable in the source: `strptime` accepts a date such as 1500-01-01 that `pd.date_range` cannot represent, and the collision extractor's own handler then calls `_create_sample_data` again, which raises again (`src/extract.py:106-108`). The model's total `Platform.calendar` cannot represent such a date, so its `run_extraction` never raises. The fallback's sample weather frame also lacks `datetime`, so `Pipeline.NoRunSucceeds` would hold with the fallback too.
- `Loading.MergeWeatherCollisionData`: the `groupby`/`mode` aggregation and the left join are parameters, because they are pandas internals.
- `Loading.DataSummary`: the `boroughs` entry is the set of borough cells, without `sorted` order and without the `TypeError` that `sorted` raises when text and missing cells are mixed.
- `Tables.Require`: a referenced column that appears twice after renaming is a `DuplicateColumn` failure. pandas raises too for a duplicated `datetime`, numeric or `borough` column (`to_datetime` and `to_numeric` reject a frame, and a frame has no `.str`). It goes on with a two-column frame only for a duplicated `collision_id`, `crash_date` or `crash_time`, which the model still fails.
- Column dtypes are not modelled: a cell is text, number, date or null whatever its column holds. Three effects of dtypes are therefore missing:
  - `WeatherTransformer.Transform`: `.str.upper()` on a borough column holding no text, such as an all-NaN float column, raises `AttributeError` (`transform_UPDATED.py:79`). The model returns the records with no borough.
  - `CollisionsTransformer.Transform`: the same raise happens when every borough cell is a non-null number (`transform_UPDATED.py:187`). The model drops those rows as unrecognised boroughs.
  - `Accumulation.MergeIdempotent` and `Accumulation.NewRecordsAreNewKeys` hold for the master as the model passes it, in memory. `pd.read_csv` re-reads an all-digit text `collision_id` as an integer (`transform_UPDATED.py:326`), and `drop_duplicates` (`transform_UPDATED.py:333-336`) then treats `4712345` and `"4712345"` as different keys, so across runs on API data a re-delivered collision can be kept twice.
- `Accumulation.Accumulate`: the order of rows with equal timestamps is not specified, because `sort_values` is not a stable sort by default.
- `Sequences.SortByRank`: sorting is modelled as insertion by rank, and only the sorted order and the permutation are promised.
- `CollisionsTransformer.ResolveColumns`: `BOROUGHS` comes from the configuration module, which is not part of this model. It is a parameter set of names.
- `Pipeline.Ordinal`: dates are not checked against the calendar, so `strptime`'s rejection of an impossible day is the separate `Malformed` case of a date string.

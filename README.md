# vn_stock daily pipeline, modelled in Dafny

This project models the daily HOSE stock-price pipeline in Dafny 4.11 and proves properties of that model. The pipeline has three layers:

- **Raw (bronze)**: quotes are fetched for every valid HOSE symbol over a configured date range. They are hard-filtered to that range and saved as one JSON object per trading day, followed by a `_SUCCESS` marker for the run.
- **Silver**: the raw table is cleaned. The trading date is resolved and set to midnight, prices and volume are coerced to numbers, audit columns are stamped, and incomplete rows are dropped. The result is checked against its YAML column contract and written as parquet partitions per `trading_date`, followed by a marker.
- **Gold**: a feature table is built by a stable sort, a keep-last de-duplication on `(symbol, exchange, trading_date)`, the per-group daily return and the 5- and 20-row moving averages of the close. It is validated against the gold contract and written as parquet partitions, with no marker.

The orchestrator runs these stages strictly in sequence. An empty fetch and an empty gold table end the run normally. Any other stage failure ends it with exit code 1.

Layout, one module per source file plus shared ones:

| file | module | models |
|---|---|---|
| `wrappers.dfy` | `Wrappers` | `Option`, `Result` |
| `values.dfy` | `Values` | cells, dtypes, calendar days, ISO date text, decimal text, Python string order |
| `tables.dfy` | `Tables` | data frames as a dtype map and a sequence of rows; column operations; day partitions |
| `row_order.dfy` | `RowOrder` | the stable sort and `drop_duplicates(keep="last")` on the gold key |
| `fetch_stock_price.dfy` | `BronzeFetch` | `src/extract/fetch_stock_price.py` |
| `clean_stock_price.dfy` | `SilverCleaner` | `src/transform/clean_stock_price.py` |
| `validate_silver_schema.dfy` | `SchemaValidator` | `src/transform/validate_silver_schema.py` |
| `build_stock_price_daily.dfy` | `GoldBuilder` | `src/transform/build_stock_price_daily.py` |
| `validate_gold_schema.dfy` | `GoldValidator` | `src/transform/validate_gold_schema.py` |
| `s3_utils.dfy` | `Storage` | `src/utils/s3_utils.py` |
| `save_raw_to_s3.dfy` | `RawSaver` | `src/load/save_raw_to_s3.py` |
| `save_silver_to_s3.dfy` | `SilverSaver` | `src/load/save_silver_to_s3.py` |
| `save_gold_to_s3.dfy` | `GoldSaver` | `src/load/save_gold_to_s3.py` |
| `run_daily_pipeline.dfy` | `DailyPipeline` | `scripts/run_daily_pipeline.py` |

The pure transforms (cleaning, building gold, the contract checks as a report, the date filter) are functions. The parts of the source that change things step by step are methods with loops, proved equal to a specification function whose properties are lemmas. These are:

- the S3 client, as the class `Storage.ObjectStore`;
- the uuid supply, as the class `Storage.NameSupply`;
- the quote client, as the class `BronzeFetch.QuoteService`;
- the retry and group loops, the symbol loop, the validator's check loops and the orchestrator.

External effects become inputs:

- The quote service answers from an oracle sequence of responses.
- The object store's `put_object` succeeds or fails as a sequence of booleans dictates. An exhausted oracle succeeds.
- `uuid.uuid4().hex` is the `n`-th fresh name of a counter.
- The parquet and JSON encoders are function parameters.
- `datetime.utcnow()` is a value parameter.
- `date.today()`, the default run date, is the `runDate` parameter of the daily run.
- The HOSE listing and `pd.concat` are parameters.
- The YAML configuration and schema files are datatypes handed in.

## Model

| member | source | states |
|---|---|---|
| Values.DaysInMonth | src/extract/fetch_stock_price.py:36 | a month has 28 to 31 days, and February has 29 exactly in leap years (the calendar behind `%Y-%m-%d` parsing) |
| Values.IsoDateRoundTrip | src/extract/fetch_stock_price.py:32-38 | a valid day written as `YYYY-MM-DD` reads back as that day |
| Values.IsoDateCanonical | src/extract/fetch_stock_price.py:36 | ten characters that parse as a date are exactly that date's ISO form, so `_normalize_date_str` returns a padded `YYYY-MM-DD` argument unchanged |
| Values.ShortIsoDate | src/extract/fetch_stock_price.py:36 | `%Y-%m-%d` takes one-digit months and days: `2024-1-5` reads as 5 January 2024 |
| Values.FormatDateParts | src/load/save_raw_to_s3.py:19 | `strftime("%Y-%m-%d")` puts the four-digit year, the month and the day at fixed positions between dashes |
| Values.FormatDateOrder | src/utils/s3_utils.py:107-112 | day strings compare as the days they name, so grouping by the string visits days in calendar order |
| Values.FormatDateInjective | src/utils/s3_utils.py:107-115 | distinct valid days give distinct day strings, and therefore distinct partition prefixes |
| Values.ParseIntRoundTrip | src/transform/clean_stock_price.py:59-63 | integer text in Python's `str(int)` form is read back by `to_numeric` as that integer |
| Values.PaddedNumber | src/transform/clean_stock_price.py:61 | ASCII white space before and after a number does not change what `to_numeric` reads |
| Values.ExponentForm | src/transform/clean_stock_price.py:61 | digits, `e` and digits read as the float `m` times ten to the power `e` |
| Values.StrCmpEqual | src/transform/build_stock_price_daily.py:45-48 | the string order used for the sort keys is zero exactly on equal strings |
| Values.StrCmpAntisymmetric | src/transform/build_stock_price_daily.py:45-48 | swapping the operands negates the string comparison |
| Values.StrCmpTransitive | src/transform/build_stock_price_daily.py:45-48 | the string order is transitive |
| Values.StrCmpPadDigits | src/utils/s3_utils.py:107-112 | zero-padded digit strings of one width compare as the numbers they spell |
| Values.DateCmp | src/transform/build_stock_price_daily.py:45-48 | the date comparison is zero exactly on equal days and negative exactly when the first is earlier |
| Values.ValueCmpProperties | src/transform/build_stock_price_daily.py:45-48 | the cell comparison used by `sort_values` is zero exactly on equal cells, and swapping the cells negates it |
| Values.ValueCmpTransitive | src/transform/build_stock_price_daily.py:45-48 | the cell comparison is transitive |
| Values.ParseTimeOfDay | src/transform/clean_stock_price.py:43 | a parsed `HH:MM:SS` time is a second within the day |
| Values.ParseDateTimeText | src/transform/clean_stock_price.py:43 | text `to_datetime` reads gives a valid timestamp |
| Values.IndexOf | src/extract/fetch_stock_price.py:112-113 | the position found holds the character and none before it does; no position means the character does not occur |
| Tables.FirstPresent | src/transform/clean_stock_price.py:24-25 | the result is the first candidate that is a column; none means no candidate is a column |
| Tables.SetColumn | src/transform/clean_stock_price.py:29 | the column now has the given dtype and cell in every row, and every other column is untouched |
| Tables.DropColumns | src/transform/clean_stock_price.py:30 | the named columns are gone from the dtypes and from every row, and the other cells are unchanged |
| Tables.Rename | src/load/save_silver_to_s3.py:37-38 | after `rename`, the old name is absent from the dtypes and every row's old cell now sits under the new name |
| Tables.Column | src/transform/clean_stock_price.py:29 | the column has one cell per row, each row's cell of that column |
| Tables.Normalize | src/transform/clean_stock_price.py:41 | `dt.normalize()` keeps the day and sets the time to midnight, and leaves other values alone |
| Tables.ToDatetime | src/transform/clean_stock_price.py:43 | `to_datetime(errors="coerce")` keeps timestamps and reads text as a valid timestamp; in the model, unreadable text and every other value (numbers included) become null |
| Tables.DaysOfMembers | src/utils/s3_utils.py:107-112 | the collected day labels are strictly ascending and are exactly the labels that occur in the rows |
| Tables.PartitionDays | src/utils/s3_utils.py:107-112 | the partition labels are the distinct `YYYY-MM-DD` strings of the column, strictly ascending, each occurring in some row |
| Tables.RowsOfDay | src/utils/s3_utils.py:112 | a day group holds only rows whose label is that day, and every such row |
| Tables.RowsOfDayInOrder | src/utils/s3_utils.py:112 | a day group is the table's rows at exactly the positions whose label is that day, in increasing position order |
| Tables.PartitionNonEmpty | src/utils/s3_utils.py:112 | every partition label has at least one row in its group |
| RowOrder.KeyCmpTransitive | src/transform/build_stock_price_daily.py:45-48 | the lexicographic key order on (symbol, exchange, trading_date) is transitive |
| RowOrder.KeyCmpLeading | src/transform/build_stock_price_daily.py:58 | a key no greater than another has a symbol no greater, and with equal symbols an exchange no greater, so groups are contiguous in sorted order |
| RowOrder.KeyCmpProperties | src/transform/build_stock_price_daily.py:45-48 | the key comparison is zero exactly on equal keys and swapping the keys negates it |
| RowOrder.Sort | src/transform/build_stock_price_daily.py:45-48 | the stable (insertion) sort's result is sorted by key and is a permutation of the input |
| RowOrder.SortKeepsLast | src/transform/build_stock_price_daily.py:45-52 | the sort is stable where `keep="last"` needs it: for every key, the last element holding it is the same before and after sorting |
| RowOrder.SortSorted | src/transform/build_stock_price_daily.py:107 | on already sorted input the stable sort changes nothing |
| RowOrder.KeepLast | src/transform/build_stock_price_daily.py:50-52 | `drop_duplicates(keep="last")` keeps elements of the input, no two with one key, and every key of the input survives |
| RowOrder.KeepLastInOrder | src/transform/build_stock_price_daily.py:50-52 | it keeps exactly the elements that no later element shares a key with, in their input order |
| RowOrder.KeepLastSurvivor | src/transform/build_stock_price_daily.py:50-52 | the element kept for each key is the last one in the input holding it |
| RowOrder.KeepLastSorted | src/transform/build_stock_price_daily.py:50-52 | de-duplicating a sorted sequence leaves keys that are strictly ascending |
| RowOrder.KeepLastCount | src/transform/build_stock_price_daily.py:50-52 | exactly one row remains per distinct key |
| BronzeFetch.ValidSymbolIff | src/extract/fetch_stock_price.py:25-29 | a symbol is valid exactly when it is three ASCII letters of either case or digits, with only white space around them |
| BronzeFetch.NormalizeDateStr | src/extract/fetch_stock_price.py:32-38 | an absent date stays absent; text that `%Y-%m-%d` reads as a calendar day is returned as that day's padded `YYYY-MM-DD` form, which is the text itself when it has ten characters; anything else is `InvalidDateFormat` carrying the text |
| BronzeFetch.ShortDateNormalized | src/extract/fetch_stock_price.py:32-38 | `2024-1-5` is normalised to `2024-01-05` |
| BronzeFetch.FormattedDateAccepted | src/extract/fetch_stock_price.py:32-38 | every representable day's ISO form is accepted unchanged |
| BronzeFetch.Accepted | src/extract/fetch_stock_price.py:101-105 | an answer is kept exactly when it is a non-empty frame, and then it is kept with the symbol column set |
| BronzeFetch.WithSymbol | src/extract/fetch_stock_price.py:102-103 | the copy has the `symbol` column set to the symbol in every row and nothing else changed |
| BronzeFetch.QuoteService.History | src/extract/fetch_stock_price.py:95-99 | one request for the symbol, recorded, answered by the next oracle response |
| BronzeFetch.QuoteService.Backoff | src/extract/fetch_stock_price.py:114-120 | the rate-limit sleep is counted and nothing else changes |
| BronzeFetch.QuoteService.Pause | src/extract/fetch_stock_price.py:125 | the per-symbol sleep is counted and nothing else changes |
| BronzeFetch.QuoteService.constructor | src/extract/fetch_stock_price.py:72-74 | a new client answers from the given responses and has made no request, back-off or pause |
| BronzeFetch.FetchSymbolStep | src/extract/fetch_stock_price.py:85-123 | one turn of the retry loop: a rate limit requests again after one back-off; any other answer (a frame, `RetryError`, another exception) ends the loop |
| BronzeFetch.FetchSymbolQuotes | src/extract/fetch_stock_price.py:84-125 | the retry loop and the pause, as a method on the service, leave the service state and the kept frame that the specification `FetchSymbol` gives |
| BronzeFetch.FetchQuotes | src/extract/fetch_stock_price.py:79-125 | the symbol loop leaves the service state and the result list that the specification `FetchAll` gives |
| BronzeFetch.FetchSymbolStops | src/extract/fetch_stock_price.py:85-123 | after `k < 3` rate limits, the first other answer ends the loop after `k + 1` requests and `k` back-offs and decides what is kept |
| BronzeFetch.FetchSymbolGivesUp | src/extract/fetch_stock_price.py:84-123 | three rate limits in a row give the symbol up with nothing kept, after exactly three requests and three back-offs |
| BronzeFetch.FetchSymbolBounds | src/extract/fetch_stock_price.py:84-123 | whatever the service answers, one symbol costs between one and `MAX_RETRY` requests, all for that symbol, with at most one back-off each |
| BronzeFetch.FetchSymbolKept | src/extract/fetch_stock_price.py:101-104 | a kept frame is a non-empty frame returned by the service, tagged with the symbol |
| BronzeFetch.FetchAllRequests | src/extract/fetch_stock_price.py:79-125 | the loop requests only valid symbols of the listing, in listing order, at most three times each, and pauses once per valid symbol |
| BronzeFetch.FetchAllResults | src/extract/fetch_stock_price.py:79-104 | there are at most as many results as valid symbols, and each is a non-empty frame naming one valid symbol of the listing |
| BronzeFetch.NoValidSymbolNoRequest | src/extract/fetch_stock_price.py:80-82 | a listing without a valid symbol makes no request and fetches nothing |
| BronzeFetch.DropNullDates | src/extract/fetch_stock_price.py:143-145 | a row is kept exactly when its `trading_date` is not null |
| BronzeFetch.KeepWithin | src/extract/fetch_stock_price.py:153-158 | a row is kept exactly when its `trading_date` lies between the start and end timestamps |
| BronzeFetch.WithinIsDayRange | src/extract/fetch_stock_price.py:150-158 | for a midnight or null date, lying between the midnight bounds means being a day of `[start, end]` |
| BronzeFetch.Stamp | src/extract/fetch_stock_price.py:182-187 | the four audit columns are added as text, every row gets the source, the two range texts and the run date (null without one), and nothing else changes |
| BronzeFetch.BronzeFilter | src/extract/fetch_stock_price.py:135-136 | a combined table without a `time` column is exactly the `KeyError` case |
| BronzeFetch.KeptRows | src/extract/fetch_stock_price.py:138-158 | the rows kept are exactly the dated input rows whose `time` falls on a day of `[start, end]` |
| BronzeFetch.BronzeContractHolds | src/extract/fetch_stock_price.py:171-177 | the closing date-contract assertion never fires, because the filter has already removed every row it would object to |
| BronzeFetch.BronzeFilterRows | src/extract/fetch_stock_price.py:138-187 | every output row is a dated input row in range with the four audit cells, and every in-range input row is in the output |
| BronzeFetch.BronzeRowsInRange | src/extract/fetch_stock_price.py:155-182 | every output row's `trading_date` is midnight of a day in `[start, end]` and it carries `api_source = "vnstock:VCI"` |
| BronzeFetch.FetchHose | src/extract/fetch_stock_price.py:54-130 | a malformed start or end date fails with `InvalidDateFormat` before any request; a result or a `time` error needs both dates readable; an empty listing gives the empty table |
| BronzeFetch.FetchHoseStockPrices | src/extract/fetch_stock_price.py:54-189 | the method on the quote service leaves the service state and the result that the specification `FetchHose` gives |
| BronzeFetch.FetchHoseInRange | src/extract/fetch_stock_price.py:153-187 | the bronze guarantee: the date-contract error never occurs, and every row returned lies at midnight in the requested range and carries the API source |
| BronzeFetch.FetchHoseFiltered | src/extract/fetch_stock_price.py:66-189 | with both dates readable and some quotes fetched, the result is the filter applied to the concatenated frames over the parsed range, stamped with the normalised range texts |
| BronzeFetch.FetchHoseUnfiltered | src/extract/fetch_stock_price.py:66-128 | a fetch that stops at the dates or finds no quotes returns an error about the dates or the empty table |
| SilverCleaner.NumericValue | src/transform/clean_stock_price.py:61 | coercion of one value is a number or null, and denotes the same number as the input |
| SilverCleaner.ToNumeric | src/transform/clean_stock_price.py:59-63 | the coerced column keeps every value's number, is null exactly where the input has none, and fits the integer or float dtype chosen |
| SilverCleaner.ClampVolume | src/transform/clean_stock_price.py:63-64 | the volume is present and non-negative afterwards; a non-negative number is left as it was, and anything else becomes zero of the column's dtype (`0` or `0.0`) |
| SilverCleaner.ResolveDate | src/transform/clean_stock_price.py:24-30 | missing `time` and `date` is exactly the error case; otherwise `trading_date` is copied from `time` if present, else from `date`, and both are dropped, row by row |
| SilverCleaner.RenameClose | src/transform/clean_stock_price.py:34-35 | `close` is gone; if it was present its cells and dtype are now under `close_price`, otherwise nothing changes (a table with both names is refused in step 3 before this result is used) |
| SilverCleaner.NormalizeDates | src/transform/clean_stock_price.py:40-54 | a non-datetime column with one unparseable value is exactly the error case; otherwise every row's date is parsed and set to midnight, and the column becomes datetime |
| SilverCleaner.CoerceColumn | src/transform/clean_stock_price.py:59-61 | one price column is coerced: each cell keeps its number and is null exactly where the input denotes none; every other column is untouched |
| SilverCleaner.CoercePrices | src/transform/clean_stock_price.py:59-61 | each present price column keeps its numbers, null exactly where the input denotes none, and columns outside the price list are untouched |
| SilverCleaner.CoerceVolume | src/transform/clean_stock_price.py:63-64 | no `volume` column is exactly the error case; otherwise each volume is the input's number when that is no less than zero and zero of the column's dtype otherwise, and nothing else changes |
| SilverCleaner.Stamp | src/transform/clean_stock_price.py:69-71 | every row gets the same exchange, source and ingestion time |
| SilverCleaner.CompleteRows | src/transform/clean_stock_price.py:76 | the kept rows all have a symbol, a date and a close, and every such input row is kept |
| SilverCleaner.DropIncomplete | src/transform/clean_stock_price.py:76-77 | a missing subset column is exactly the `KeyError` case; otherwise the rows are the complete ones |
| SilverCleaner.EmptyInputGivesEmpty | src/transform/clean_stock_price.py:15-17 | an absent or empty input gives the empty table |
| SilverCleaner.NoDateColumnRejected | src/transform/clean_stock_price.py:26-27 | a non-empty input with neither `time` nor `date` is refused |
| SilverCleaner.EarlyStepsEstablish | src/transform/clean_stock_price.py:24-54 | after steps 1 and 2 the raw date columns and `close` are gone, and `trading_date` is datetime with midnight cells or nulls |
| SilverCleaner.DatesAtMidnight | src/transform/clean_stock_price.py:40-54 | after date normalisation every row's `trading_date` is midnight or null |
| SilverCleaner.PreparedColumns | src/transform/clean_stock_price.py:24-71 | a successful preparation has `trading_date` as datetime, no `time`, `date` or `close`, and the three metadata columns |
| SilverCleaner.PreparedRows | src/transform/clean_stock_price.py:24-71 | every prepared row has a midnight or null date, a present non-negative volume and the stamped metadata |
| SilverCleaner.CleanEstablishes | src/transform/clean_stock_price.py:9-85 | a successful clean of a non-empty table yields a datetime `trading_date` column and rows that all have a symbol, a midnight date, a close, a non-negative volume and the metadata |
| SilverCleaner.CompleteRowsInOrder | src/transform/clean_stock_price.py:76 | `dropna` keeps exactly the rows with a symbol, a date and a close, in their order |
| SilverCleaner.PreparedCloseTrace | src/transform/clean_stock_price.py:34-61 | row `j` after steps 1 to 4 holds, under `close_price`, the coerced close of input row `j` (from `close` when present, else `close_price`) |
| SilverCleaner.PreparedVolumeTrace | src/transform/clean_stock_price.py:63-64 | row `j` after steps 1 to 4 holds the clamped volume of input row `j` |
| SilverCleaner.CleanRowsTrace | src/transform/clean_stock_price.py:9-85 | a successful clean is, in order, exactly the complete prepared rows, and prepared row `j` carries the coerced close and the clamped volume of input row `j` |
| SilverCleaner.UnparseableCloseDropped | src/transform/clean_stock_price.py:59-76 | no row of a successful clean comes from an input row whose close does not read as a number |
| SilverCleaner.DuplicateCloseRejected | src/transform/clean_stock_price.py:34-61 | with both `close` and `close_price` present and a fully readable date column (`time`, else `date`), the rename leaves two `close_price` columns and step 3's `to_numeric` refuses the frame |
| SilverCleaner.TimePreferred | src/transform/clean_stock_price.py:24-25 | with both `time` and `date` present the trading date comes from `time` |
| SilverCleaner.UnparseableDateRejected | src/transform/clean_stock_price.py:43-52 | a non-datetime date column (`time`, else `date`) with one unreadable value stops the cleaner |
| SchemaValidator.Handle | src/transform/validate_silver_schema.py:8-12 | strict mode raises the message; permissive mode logs it and continues |
| SchemaValidator.StopsAtFirst | src/transform/validate_silver_schema.py:8-12 | in strict mode the first violation found is the report's first and nothing was logged before it |
| SchemaValidator.Report1 | src/transform/validate_silver_schema.py:8-12 | one check's violations either stop a strict run or are appended to the log, keeping the log a prefix of the report |
| SchemaValidator.CheckPartitions | src/transform/validate_silver_schema.py:60-63 | the partition loop reports each missing partition column, in order |
| SchemaValidator.CheckRule | src/transform/validate_silver_schema.py:68-109 | for a present contract column: nullability, then its type rule |
| SchemaValidator.CheckColumns | src/transform/validate_silver_schema.py:68-109 | the column loop reports what the specification reports for every present contract column, skipping absent ones |
| SchemaValidator.CheckPrimaryKey | src/transform/validate_silver_schema.py:112-121 | nulls in each key column, then duplicates; an absent key column ends the checks with a `KeyError` |
| SchemaValidator.CheckNotNull | src/transform/validate_silver_schema.py:127-131 | the not-null quality loop reports each present column holding a null |
| SchemaValidator.CheckPositive | src/transform/validate_silver_schema.py:133-136 | the positive-values loop reports negatives and crashes on a comparison that raises |
| SchemaValidator.ValidateDataFrameSchema | src/transform/validate_silver_schema.py:28-139 | the method's outcome (raise, crash, or pass with the logged warnings) is the specification `Expected` |
| SchemaValidator.MissingColumnsFirst | src/transform/validate_silver_schema.py:50-55 | contract columns the table lacks are reported together, before anything else |
| SchemaValidator.MissingPartitionReported | src/transform/validate_silver_schema.py:60-63 | a missing partition column is in the report |
| SchemaValidator.NullInNonNullableReported | src/transform/validate_silver_schema.py:78-79 | a null in a non-nullable present column is in the report |
| SchemaValidator.TypeViolationReported | src/transform/validate_silver_schema.py:80-109 | a present column failing its type rule is in the report |
| SchemaValidator.AbsentColumnSkipped | src/transform/validate_silver_schema.py:68-71 | a contract column absent from the table adds nothing beyond the missing-columns report |
| SchemaValidator.PrimaryKeyNullReported | src/transform/validate_silver_schema.py:114-118 | a null in a present primary-key column is in the report |
| SchemaValidator.DuplicateKeyReported | src/transform/validate_silver_schema.py:120-121 | two rows with equal keys over present key columns put the duplicate violation in the report |
| SchemaValidator.AbsentKeyColumnCrashes | src/transform/validate_silver_schema.py:120 | a primary key naming an absent column ends the checks with a `KeyError` |
| SchemaValidator.QualityNullReported | src/transform/validate_silver_schema.py:129-131 | a null in a present not-null quality column is in the report |
| SchemaValidator.NegativeValuesReported | src/transform/validate_silver_schema.py:134-136 | a negative number in a present positive-values column is in the report |
| SchemaValidator.NonNumericComparisonCrashes | src/transform/validate_silver_schema.py:134-136 | the first positive-values column whose comparison with zero raises ends the checks |
| SchemaValidator.NoCrashWithoutCause | src/transform/validate_silver_schema.py:112-136 | without an absent key column or an incomparable positive-values column nothing crashes |
| SchemaValidator.PositiveFlagsNegativesOnly | src/transform/validate_silver_schema.py:134-136 | the positive-values check flags strictly negative values only, so zero passes |
| SchemaValidator.DatetimePositiveCrashes | src/transform/validate_silver_schema.py:134-136 | comparing a datetime column with zero always raises |
| SchemaValidator.FloatAcceptsIntegers | src/transform/validate_silver_schema.py:86-89 | integer columns are accepted where float is declared |
| SchemaValidator.IntAcceptsWholeFloats | src/transform/validate_silver_schema.py:91-93 | a float column is accepted as int exactly when every value is whole |
| SchemaValidator.DateNeedsMidnight | src/transform/validate_silver_schema.py:95-101 | a date column must be datetime with every timestamp at midnight |
| SchemaValidator.UnknownTypeReported | src/transform/validate_silver_schema.py:107-109 | an unknown declared type is a violation whatever the data |
| SchemaValidator.StrictRaisesFirstWarning | src/transform/validate_silver_schema.py:8-139 | permissive mode never raises a violation; strict mode raises exactly when permissive mode would log something, and raises its first warning |
| SchemaValidator.StrictPassIffSilentPermissive | src/transform/validate_silver_schema.py:8-139 | a table passes strict validation exactly when permissive validation logs nothing |
| SchemaValidator.EmptyTableOnly | src/transform/validate_silver_schema.py:38-40 | an absent or empty table is reported as such and nothing else is checked |
| SchemaValidator.NullVolumeExample | src/transform/validate_silver_schema.py:78-93 | a non-nullable int column holding a null: strict mode raises on it, permissive mode logs it once and returns |
| SchemaValidator.NullVolumeReport | src/transform/validate_silver_schema.py:78-79 | a float volume column holding a whole number and a null, under a non-nullable int rule, passes the type check and has the null as its one violation, with no crash |
| GoldBuilder.Coerce | src/transform/build_stock_price_daily.py:34-39 | the surviving rows are exactly the coerced forms of the rows whose close and volume read as numbers |
| GoldBuilder.CoerceInOrder | src/transform/build_stock_price_daily.py:34-39 | the survivors are the coerced forms of the rows at exactly the positions whose close and volume read as numbers, each once and in input order |
| GoldBuilder.FeaturesAt | src/transform/build_stock_price_daily.py:58-76 | a row outside every group gets null features; a grouped row always has both moving averages |
| GoldBuilder.GoldRecords | src/transform/build_stock_price_daily.py:92-103 | the `Int64` cast succeeds exactly when every volume is whole, and then gives one gold record per row; otherwise it fails on a fractional volume |
| GoldBuilder.GoldTable | src/transform/build_stock_price_daily.py:79-103 | the gold table has the eight gold columns with their final dtypes and one row per record |
| GoldBuilder.ToStr | src/transform/build_stock_price_daily.py:92-93 | `astype(str)` keeps text keys, writes integers as text that reads back as the same integer, and writes a timestamp as its ISO day, a space and the time |
| GoldBuilder.SkipsWithoutRequiredColumns | src/transform/build_stock_price_daily.py:14-25 | an absent or empty input, or one lacking a required column, gives the empty table |
| GoldBuilder.RejectsNonDatetimeDate | src/transform/build_stock_price_daily.py:28-30 | a non-datetime `trading_date` is an error |
| GoldBuilder.BuildShape | src/transform/build_stock_price_daily.py:32-109 | a buildable table fails only on a fractional volume; otherwise the result has the gold dtypes, one row per surviving key, every close a float and every volume an integer |
| GoldBuilder.DedupUniqueSorted | src/transform/build_stock_price_daily.py:45-55 | the surviving rows have pairwise distinct keys, sorted ascending, one per distinct key among the coercible rows |
| GoldBuilder.DedupKeepsLastInInput | src/transform/build_stock_price_daily.py:45-52 | for each key, the row kept is the last coercible row with that key in input order |
| GoldBuilder.DedupFromInput | src/transform/build_stock_price_daily.py:34-52 | every kept row is the coerced form of an input row |
| GoldBuilder.GroupsContiguous | src/transform/build_stock_price_daily.py:58 | in the sorted table the rows of a `(symbol, exchange)` group are contiguous |
| GoldBuilder.FirstRowOfGroup | src/transform/build_stock_price_daily.py:58-76 | the first row of a group has no daily return and both moving averages equal its close |
| GoldBuilder.GroupStartsWhereItChanges | src/transform/build_stock_price_daily.py:58-60 | a row starts its group exactly when the row before it is of another group or it is the first row |
| GoldBuilder.FeaturesByGroupIndex | src/transform/build_stock_price_daily.py:58-76 | the previous close is the close before it in the group, the return needs it present and non-zero, and each average is over group closes `max(0, i - w + 1) .. i` |
| GoldBuilder.GoldRecordsSorted | src/transform/build_stock_price_daily.py:105-107 | with text keys the gold records are already sorted by key |
| GoldBuilder.FinalSortKeepsOrder | src/transform/build_stock_price_daily.py:105-109 | the final sort changes nothing: output row `i` is kept row `i` with its features |
| GoldBuilder.BuildOnRecords | src/transform/build_stock_price_daily.py:79-109 | a buildable table whose records are `gs` builds the sorted `gs` |
| GoldBuilder.DedupTextKeys | src/transform/build_stock_price_daily.py:92-93 | text keys in the input stay text keys in the kept rows |
| GoldBuilder.DedupSorted | src/transform/build_stock_price_daily.py:45-52 | the kept rows are sorted by key |
| GoldValidator.Join | src/transform/validate_gold_schema.py:23-24 | `Path(root) / path`: an absolute path replaces the root, a relative one is appended |
| GoldValidator.ResolveSchema | src/transform/validate_gold_schema.py:21-27 | the path as given wins if it exists, else the path under the repository root; none exactly when neither exists |
| GoldValidator.GoldExpected | src/transform/validate_gold_schema.py:17-30 | an empty table is refused; a non-empty one fails with `FileNotFoundError` exactly when no schema file is found, and is otherwise judged by the generic engine |
| GoldValidator.ValidateStockPriceDaily | src/transform/validate_gold_schema.py:8-32 | the method's outcome is the specification `GoldExpected` |
| GoldValidator.EmptyAlwaysRaises | src/transform/validate_gold_schema.py:17-18 | an empty gold table is an error even in permissive mode, where the generic engine would only log it |
| GoldValidator.DelegatesToFound | src/transform/validate_gold_schema.py:21-30 | a non-empty table is judged by the found file's contract with the same strict flag |
| GoldValidator.AbsoluteHasNoFallback | src/transform/validate_gold_schema.py:22-27 | an absolute path that does not exist has no fallback |
| GoldValidator.StrictGoldRaisesOrPassesClean | src/transform/validate_gold_schema.py:30 | in strict mode any violation found raises the first one, and a pass has logged nothing |
| Storage.ObjectStore.Put | src/utils/s3_utils.py:42 | one `put_object`, recorded, stored only when the oracle lets it succeed |
| Storage.ObjectStore.Sleep | src/utils/s3_utils.py:51-52 | a retry sleep is counted and nothing else changes |
| Storage.ObjectStore.constructor | src/utils/s3_utils.py:15-21 | a new client holds the given objects and outcome oracle and has made no attempt or sleep |
| Storage.PutWorld | src/utils/s3_utils.py:42 | one put consumes one outcome and records the attempt; the object is written exactly when the outcome is a success; sleeps are unchanged |
| Storage.UploadStep | src/utils/s3_utils.py:39-52 | a failed attempt continues with one attempt fewer, after a sleep unless it was the last |
| Storage.UploadShape | src/utils/s3_utils.py:39-55 | any upload makes between one and `max_retries` attempts at its key (none when the budget is not positive), sleeps between attempts only, and changes only that key's object, only on success |
| Storage.UploadAfterFailures | src/utils/s3_utils.py:39-52 | `k < max_retries` failures then a success: the upload succeeds after exactly `k + 1` attempts and `k` sleeps |
| Storage.UploadAllFail | src/utils/s3_utils.py:39-55 | `max_retries` failures: exactly `max_retries` attempts, one sleep fewer, no object changed, and the upload fails |
| Storage.UploadBytes | src/utils/s3_utils.py:23-55 | non-bytes data is a `TypeError` with nothing attempted; otherwise the retry loop leaves the store as the specification `Upload` does and fails exactly when it does |
| Storage.FreshNamesDistinct | src/utils/s3_utils.py:114 | distinct draws of the name supply give distinct names |
| Storage.NameSupply.Fresh | src/utils/s3_utils.py:114 | the next fresh name is drawn and the supply moves on by one |
| Storage.NameSupply.constructor | src/utils/s3_utils.py:114 | a new supply has issued no name |
| Storage.PartTableRows | src/utils/s3_utils.py:112-120 | a day's payload is that day's rows in table order without the `_partition` helper column |
| Storage.WriteParts | src/utils/s3_utils.py:112-129 | no days write nothing; an unsupported format fails on the first day; the loop fails only with an upload or a format error (the model's encoder never fails) |
| Storage.UploadDataFrame | src/utils/s3_utils.py:69-131 | an absent or empty table writes nothing and returns `[]`; every error but an upload or format failure leaves the store and the name supply untouched (the model's encoder never fails) |
| Storage.UploadDataFrameToS3 | src/utils/s3_utils.py:69-131 | the guards and the group loop, as a method, leave the store, the name supply and the keys that the specification `UploadDataFrame` gives |
| Storage.WriteGroups | src/utils/s3_utils.py:112-129 | the group loop leaves the store, the name supply and the keys that the specification `WriteParts` gives |
| Storage.PartitionDaysAreDates | src/utils/s3_utils.py:107 | every partition label is a ten-character day string |
| Storage.PartKeysDiffer | src/utils/s3_utils.py:113-115 | two keys of the same layout with different day labels differ |
| Storage.WritePartsKeys | src/utils/s3_utils.py:112-125 | a successful group loop returns one key per day, in day order, each with the next fresh name |
| Storage.DistinctDayKeys | src/utils/s3_utils.py:113-115 | keys built from distinct day labels are distinct |
| Storage.WritePartsFrame | src/utils/s3_utils.py:112-129 | a successful group loop changes no object outside its keys |
| Storage.WritePartsStored | src/utils/s3_utils.py:112-125 | a successful group loop stores each day's encoded rows at that day's key |
| Storage.UploadDataFrameWrites | src/utils/s3_utils.py:107-131 | a successful upload writes one object per distinct day label, in ascending order, at distinct keys with fresh names; each holds that day's non-empty group, and no other object changes |
| Storage.UploadDataFrameGuards | src/utils/s3_utils.py:89-104 | the guards in order: missing required columns, then a missing partition column, then a non-datetime partition column, each with its own error and the store and name supply unchanged; a non-datetime partition column never uploads |
| RawSaver.SerializeForJsonShape | src/load/save_raw_to_s3.py:10-20 | serializing keeps columns and rows; datetime timestamps become day text, nulls in them stay null, and every other column is unchanged |
| RawSaver.SerializeIdempotent | src/load/save_raw_to_s3.py:10-20 | serializing twice is serializing once |
| RawSaver.SerializedDateReadsBack | src/load/save_raw_to_s3.py:19 | the day text written for a valid timestamp reads back as that timestamp's day |
| RawSaver.RawParts | src/load/save_raw_to_s3.py:58-71 | no days write nothing; the day loop fails only with an upload failure (the model's JSON encoder never fails) |
| RawSaver.SaveRaw | src/load/save_raw_to_s3.py:23-78 | an empty table returns `[]`; a table without a date candidate is refused; every error but an upload failure leaves the store untouched (the model's JSON encoder never fails) |
| RawSaver.SaveDays | src/load/save_raw_to_s3.py:58-71 | the day loop, as a method, leaves the store and the keys that the specification `RawParts` gives |
| RawSaver.SaveRawStockPrice | src/load/save_raw_to_s3.py:23-78 | the method leaves the store and the result that the specification `SaveRaw` gives |
| RawSaver.RawPartsKeys | src/load/save_raw_to_s3.py:63-71 | a successful day loop returns the day keys in day order |
| RawSaver.RawKeyNotMarker | src/load/save_raw_to_s3.py:63-73 | a day key never collides with the run marker |
| RawSaver.RawKeysDistinct | src/load/save_raw_to_s3.py:63 | day keys of distinct ten-character days are distinct |
| RawSaver.RawPartsFrame | src/load/save_raw_to_s3.py:58-71 | a successful day loop changes no object outside its keys |
| RawSaver.RawPartsStored | src/load/save_raw_to_s3.py:58-71 | a successful day loop over distinct days stores each day's records at its key |
| RawSaver.SaveRawWrites | src/load/save_raw_to_s3.py:52-78 | a successful save of a non-empty table returns one key per trading day of the date column in ascending order, each holding that day's serialized records, then the marker key holding no bytes |
| RawSaver.MarkerKeepsDays | src/load/save_raw_to_s3.py:73-74 | writing the marker leaves every day object in place |
| RawSaver.SaveRawSteps | src/load/save_raw_to_s3.py:52-78 | a successful save is the day loop followed by the marker upload |
| RawSaver.SaveRawGuards | src/load/save_raw_to_s3.py:35-50 | a missing date column and a non-datetime one are refused before anything is written |
| SilverSaver.MidnightDates | src/load/save_silver_to_s3.py:48 | one midnight cell per row, each the normalised `trading_date` |
| SilverSaver.Prepare | src/load/save_silver_to_s3.py:26-48 | no candidate column is exactly `NoPartitionColumn`; a success renamed a datetime candidate to `trading_date` and set every row to midnight; the other error is a non-datetime candidate |
| SilverSaver.SaveSilver | src/load/save_silver_to_s3.py:22-24 | an absent or empty table writes nothing and returns `None` |
| SilverSaver.SaveSilverStockPrice | src/load/save_silver_to_s3.py:10-72 | the method leaves the store, the name supply and the result that the specification `SaveSilver` gives |
| SilverSaver.PrepareIdempotent | src/load/save_silver_to_s3.py:36-48 | preparing a prepared table gives it back unchanged |
| SilverSaver.PreparedAtMidnight | src/load/save_silver_to_s3.py:47-48 | every date handed to the writer is at midnight or null |
| SilverSaver.SaveSilverGuards | src/load/save_silver_to_s3.py:33-46 | no partition candidate, and a non-datetime partition column, are errors that write nothing |
| SilverSaver.SaveSilverRequiresSymbol | src/load/save_silver_to_s3.py:59 | a table without `symbol` is refused by the writer before anything is written |
| SilverSaver.SaveSilverMarkerLast | src/load/save_silver_to_s3.py:51-69 | a successful save returns the writer's keys, one per day, then the marker key; the marker holds no bytes and every put after the writer's is a put of the marker |
| SilverSaver.SaveSilverWriterFailure | src/load/save_silver_to_s3.py:70-72 | a writer failure is re-raised as is and no marker is attempted |
| GoldSaver.SaveGold | src/load/save_gold_to_s3.py:20-25 | an empty table writes nothing and returns `None`; a missing partition column is refused before anything is written |
| GoldSaver.SaveGoldStockPriceDaily | src/load/save_gold_to_s3.py:9-47 | the method leaves the store, the name supply and the result that the specification `SaveGold` gives |
| GoldSaver.SaveGoldIsWriter | src/load/save_gold_to_s3.py:34-47 | a successful save returns the writer's keys, one parquet object per day holding that day's rows, and no marker |
| GoldSaver.SaveGoldRequiresCore | src/load/save_gold_to_s3.py:39-40 | a table lacking a core gold column is refused with exactly the missing ones named, before anything is written |
| DailyPipeline.BusinessRange | scripts/run_daily_pipeline.py:34-35 | the dataset range when configured, else the source range |
| DailyPipeline.GoldStages | scripts/run_daily_pipeline.py:143-173 | building, validating and saving gold, as a method, end as the specification `FromGold` says |
| DailyPipeline.SilverStages | scripts/run_daily_pipeline.py:83-140 | the silver check, validation and save, as a method, end as the specification `FromSilver` says |
| DailyPipeline.RawStages | scripts/run_daily_pipeline.py:62-80 | saving raw and cleaning, as a method, end as the specification `FromRaw` says |
| DailyPipeline.RunDailyPipeline | scripts/run_daily_pipeline.py:26-173 | the whole run, as a method on the quote service, the store and the name supply, ends as the specification `RunPipeline` says |
| DailyPipeline.RunInOrder | scripts/run_daily_pipeline.py:47-173 | for any stage operations, the run enters the stages in their fixed order, each only after the one before succeeded; it ends at the last stage entered, is done only after all nine, and stops early only after the fetch or the gold build |
| DailyPipeline.StagesInOrder | scripts/run_daily_pipeline.py:47-173 | the daily run is strictly sequential in the same sense |
| DailyPipeline.FetchGate | scripts/run_daily_pipeline.py:47-59 | a fetch error exits with code 1 and an empty fetch returns normally; either way nothing is written |
| DailyPipeline.DailyFetch | scripts/run_daily_pipeline.py:47-59 | the fetch is the bronze fetch over the configured source range with the run date |
| DailyPipeline.RawSavedBeforeClean | scripts/run_daily_pipeline.py:62-80 | raw data is saved before cleaning, so a run that fails in the cleaner keeps what the raw save wrote |
| DailyPipeline.SilverCheckFailure | scripts/run_daily_pipeline.py:83-112 | the silver dtype check fails only after a clean succeeded, and only when a range bound is unreadable or the cleaned date is not datetime |
| DailyPipeline.CleanedNotRefused | scripts/run_daily_pipeline.py:91-102 | what the cleaner returns is never refused by the silver dtype check |
| DailyPipeline.SilverCheckOnlyOnRange | scripts/run_daily_pipeline.py:83-112 | in the daily run that check fails only when a bound of the business range cannot be read |
| DailyPipeline.BusinessRangeNotApplied | scripts/run_daily_pipeline.py:104-109 | the business range is read but never applied: any two readable ranges give the same run |
| DailyPipeline.SilverWrittenOnlyWhenPassed | scripts/run_daily_pipeline.py:115-140 | nothing reaches the silver layer unless silver validation passed |
| DailyPipeline.SilverPassesClean | scripts/run_daily_pipeline.py:115-126 | strict silver validation passes only a non-empty table whose report has no violation and no crash |
| DailyPipeline.SilverWrittenOnlyWhenValid | scripts/run_daily_pipeline.py:115-140 | nothing reaches the silver layer unless the schema file exists and the table is non-empty with a report free of violations and crashes |
| DailyPipeline.GoldWrittenOnlyWhenPassed | scripts/run_daily_pipeline.py:143-171 | nothing reaches the gold layer unless the gold table is non-empty and passed gold validation |
| DailyPipeline.GoldPassesClean | scripts/run_daily_pipeline.py:154-158 | strict gold validation passes only with nothing logged |
| DailyPipeline.GoldWrittenOnlyWhenValid | scripts/run_daily_pipeline.py:143-171 | nothing reaches the gold layer unless the built table is non-empty and passed strict gold validation with nothing logged |
| DailyPipeline.DoneMeansGoldSaved | scripts/run_daily_pipeline.py:161-173 | a run that gets through gold stored one parquet object per trading day of the gold table, each holding that day's rows |

## Left out

- Logging, the sleep durations (`RETRY_SLEEP` plus jitter, `SLEEP_PER_SYMBOL`, `retry_sleep`) and `random.uniform`: only the number of sleeps is modelled.
- `get_s3_client`, `region` and `download_bytes`: the client is the `ObjectStore` class; nothing in the core reads objects back.
- `uuid.uuid4().hex`: modelled as counter-numbered names. Their distinctness is proved; their randomness is not modelled.
- Parquet and JSON encoding (`to_parquet`, `json.dumps(...).encode`): encoders are function parameters, so object contents are stated as `encode(rows)`. The encoders never fail; see the `RawSaver.RawParts` and `Storage.WriteParts` lines.
- `fetch_hose_symbols` and the `Vnstock` client: the listing is a parameter and the quote service answers from an oracle. An exhausted oracle answers "no frame".
- `pd.concat(results, ignore_index=True)`: a parameter of the fetch.
- `load_config` and YAML parsing of the schema files: the configuration and the contracts are datatypes passed in. A missing configuration key (a `KeyError`) is not modelled.
- Whether the silver schema file exists: modelled as an optional contract.
- `scripts/duckdb_analysis.py`: it is not part of this model.
- Floating-point arithmetic: closes, returns and moving averages are exact reals, and coercion to float is exact.
- Pandas dtype inference is reduced to four dtype tags. The nullable `Int64` dtype and `int64` are one tag.
- Upper- and lower-casing cover ASCII letters only.
- `pd.to_datetime` without a format reads only a four-digit year, a one- or two-digit month and day, optionally followed by a space or `T` and `HH:MM:SS`. Other lenient forms it accepts are not modelled.
- Tables.ToDatetime: turns every number into null and reads each text value on its own. `to_datetime(errors="coerce")` reads an integer or float as nanoseconds since 1970-01-01, so an integer date column such as `20240105` becomes 1970-01-01 and the cleaner carries on, where the model reports `UnparseableDates`. pandas 2 also takes the format of the first text value for the whole column, so in a column holding both `2024-01-05` and `2024-01-06 09:15:00` the second form becomes null and the cleaner raises, where the model reads both. Neither behaviour is modelled.
- Exceptions are error values, and `sys.exit(1)` and `return` are `Exit` values.
- The daily run's properties are proved for any stage operations (`Steps`) and, where they need more, for the modelled operations.
- BronzeFetch.BronzeFilterRows: states which rows are in the output, not their order (the filter keeps input order, which is not stated).
- SilverSaver.PreparedAtMidnight: requires the input table to be well formed (every cell fits its dtype), which the source could only violate through a mis-typed datetime column.
- Tables.Rename: renaming onto a name that is already a column (the duplicate-column case of `rename`) keeps a single column.
- SilverCleaner.NumericValue: text is read by `ParseNumber` (ASCII white space around an optional sign, digits with an optional point, an optional exponent). `inf`, `infinity` and other spellings pandas reads, and rounding to a 64-bit float, are not modelled; such text becomes null.
- SilverCleaner.ToNumeric: inherits the limits of `NumericValue`; the column is integer exactly when every value read is an integer.
- BronzeFetch.NormalizeDateStr: white space around the date text is not accepted, whatever pandas' parser does with it.
- SilverSaver.Prepare: returns a new table. When `trading_date` is already the column, the source writes the normalised dates into the caller's frame (`save_silver_to_s3.py:48`); that aliasing is not modelled. The cleaner's dates are already at midnight, so the write changes no cell of a cleaned frame.
- Values.ValueCmp: values of different kinds are ordered by kind (integers, floats, text, timestamps, then nulls). In pandas an object column that mixes text with numbers makes `sort_values` raise `TypeError`, and integers mixed with floats compare by value; neither is modelled.
- GoldBuilder.ToStr: a float key is written as its integer part followed by `.0`, which is Python's text only for whole floats; `repr` of a fractional float (`1.5`) is not modelled. The model has one null, written `nan`; `astype(str)` writes `None` as `None` and `pd.NA` as `<NA>`, and those are not distinguished.
- RawSaver.RawParts: the JSON encoder never fails. `json.dumps` without `default=` raises `TypeError` on a cell it cannot encode, such as the `pd.NA` run date that a fetch without a run date stamps in. That error, and the days already written before it, are not modelled. The same holds for `RawSaver.SaveRaw`. The daily run always passes a run date.
- Storage.WriteParts: the parquet encoder never fails. An Arrow error from `to_parquet`, for example on an object column of mixed types, and the days already written before it, are not modelled. The same holds for `Storage.UploadDataFrame`.

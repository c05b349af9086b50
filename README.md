# FinInsightGenie, modelled in Dafny

FinInsightGenie takes an uploaded spreadsheet that holds a financial
statement and turns it into analysis results. This project models the
server-side core of that process.

1. The first sheet is turned into a header row and data rows of equal
   width (`parseExcelFile`).
2. The table is checked for plausibility (`validateFinancialData`).
3. Each row is converted into a record keyed by header. Currency,
   thousands separators and parenthesised negatives are coerced to numbers
   (`convertToFinancialStructure`).
4. A language model is asked for the statement type and for an analysis.
   Each reply is repaired with defaults (`detectStatementType`,
   `analyzeFinancialData`, `validateAnalysisResult`).
5. The fixed balance-sheet ratios and the balance-sheet chart are derived
   from the key metrics in the reply (`calculateFinancialRatios`,
   `generateChartData`).
6. Each stage writes its result into the analysis stored in the in-memory
   store (`MemStorage`, `processFinancialFile`). The server reports
   progress from the stored status, and the client shows that progress as
   four steps (`getStepStatus`).

Modules, one per file:

- `JsValues` (`js_values.dfy`): JavaScript values. It covers truthiness,
  `a || b`, `v?.key`, `v.key` (which throws on `null`), and
  order-preserving `filter`.
- `JsNumbers` (`js_numbers.dfy`): `trim`, and `parseFloat` as a
  longest-prefix reader of the StrDecimalLiteral grammar of ECMAScript.
  Also `Number(...)` and multiplication by a constant.
- `Schema` (`schema.dfy`): the depth enumeration and the status
  enumeration.
- `ExcelParser` (`excel_parser.dfy`): extraction, validation and
  conversion.
- `Storage` (`storage.dfy`): the records and the `MemStorage` class. A JS
  `Map` enumerates values in insertion order, so each map field is paired
  with the sequence of its keys. The class invariant `Valid` says that
  sequence lists every key once.
- `AiAnalysis` (`ai_analysis.dfy`): the repair of the model's replies and
  the fallbacks around the two model calls.
- `Routes` (`routes.dfy`):
  - the ratios, the chart and the progress switch;
  - the pipeline, written as the list of writes it makes to the stored
    analysis (`RunOf`, `ApplyWrites`);
  - the methods that perform those writes on a `MemStorage`.
- `AnalysisProgress` (`analysis_progress.dfy`): the client's step display.

Behaviours of the code that the model keeps and that are easy to overlook:

- **Ratios.** The code returns six ratios. It has no `roa`, `roe` or
  `assetTurnover`.
- **Defaults.** The code uses `metrics?.x || default`. Any falsy metric,
  including `0` and `""`, takes the default, not only a missing or `null`
  one.
- **Uncoerced cells.** A data cell that is not coerced is stored as the
  original string, untrimmed. Only header cells are trimmed.
- **Duplicate headers.** A header that occurs twice yields one key, and the
  value under it comes from the last such column (`RecordFields`). A
  record therefore has one key per distinct header, not one per column.
  A header `__proto__` yields no key at all: assigning it on a plain
  object runs the inherited `__proto__` setter (`SetProperty`).
- **Periods.** `periods` is a sequence that keeps duplicates and header
  order. The pattern is unanchored, so a header such as "Market value"
  counts as a period label because it contains "Mar" (`PeriodExamples`).
- **Data rows.** Parsing succeeds with zero data rows. Validation then
  rejects the table.
- **Charts.** Only the balance-sheet chart is produced.

## Model

| member | source | states |
|---|---|---|
| JsValues.Get | server/services/openai.ts:122-123 | reading a property fails exactly on `null`/`undefined`, otherwise yields the own property or `undefined` |
| JsValues.FilterConcat | server/services/excelParser.ts:49-51 | filtering distributes over concatenation (order is kept) |
| JsValues.FilterMember | server/storage.ts:78-82 | an element is in the filtered list iff it is in the list and passes the test |
| JsNumbers.TrimRemovesSpace | server/services/excelParser.ts:37-38 | the input is a run of white space, then the trimmed string, then a run of white space; the trimmed string is empty or neither starts nor ends with white space |
| JsNumbers.TrimBlank | server/services/excelParser.ts:37 | a cell trims to `''` iff every character is white space |
| JsNumbers.ParseFloat | server/services/excelParser.ts:97-98 | `parseFloat` yields a finite number, `NaN` or an infinity |
| JsNumbers.ParseFloatSkipsSpace | server/services/excelParser.ts:98 | leading white space never changes what `parseFloat` reads |
| JsNumbers.ParseFloatDigitPrefix | server/services/excelParser.ts:128 | a digit prefix followed by a character that cannot continue a literal is read as its integer value |
| JsNumbers.ParseFloatFraction | server/services/excelParser.ts:128 | `d.g` is read as the digits of `d` and `g` scaled down by `10^|g|` |
| JsNumbers.ParseFloatFractionExample | server/services/excelParser.ts:127-128 | `parseFloat("1234.50")` is 1234.5 |
| JsNumbers.ParseFloatIntegerExample | server/services/excelParser.ts:127-128 | `parseFloat("5000")` is 5000 |
| JsNumbers.ParseFloatNonFiniteExamples | server/services/excelParser.ts:128-129 | `"N/A"` reads as `NaN` and `"Infinity"` as an infinity, so neither is coerced |
| JsNumbers.Trim | server/services/excelParser.ts:37-38 | the trimmed string is empty or neither starts nor ends with white space (`TrimRemovesSpace` places it in the input) |
| JsNumbers.TrimOf | server/services/excelParser.ts:37-38 | a non-blank middle between two runs of white space trims to exactly that middle |
| JsNumbers.StringToNumber | server/routes.ts:232 | `Number(s)` of a string yields a finite number, `NaN` or an infinity |
| JsNumbers.StringToNumberScan | server/routes.ts:232 | `Number(s)` of a non-blank string is the literal its trimmed form starts with when that literal spans the whole trimmed form, else `NaN` |
| JsNumbers.StringToNumberBlank | server/routes.ts:232 | `Number(s)` of a blank string is 0 |
| JsNumbers.StringToNumberPadded | server/routes.ts:232 | `Number(s)` ignores white space at both ends and reads a digit string as its integer value |
| JsNumbers.NumberStopsAtText | server/routes.ts:232 | `Number("12abc")` is `NaN` where `parseFloat("12abc")` is 12 |
| JsNumbers.ToNumber | server/routes.ts:232 | the conversion `*` applies yields a number value, and a number value converts to itself |
| JsNumbers.ToNumberIdempotent | server/routes.ts:232 | converting twice is converting once |
| JsNumbers.Times | server/routes.ts:232 | the operand is first converted with `Number(...)`; a number is multiplied by the factor, `NaN` and the infinities stay as they are |
| JsNumbers.TimesExamples | server/routes.ts:232 | `null * f` is 0, `true * f` is `f`, `" 100 " * 0.94` is 94 and `"12abc" * 0.94` is `NaN` |
| Schema.DepthNamed | shared/schema.ts:50 | a depth string is accepted iff it names one of the three depths, and the depth read back has that name |
| Schema.StatusNamed | shared/schema.ts:55 | a status string is recognised iff it names one of the three statuses |
| ExcelParser.FirstContentRow | server/services/excelParser.ts:35-42 | the header row found is the first row with a non-blank cell; none exists iff every row is blank |
| ExcelParser.FindHeaderRow | server/services/excelParser.ts:32-46 | the loop that breaks at the first non-blank row returns exactly that row, or none |
| ExcelParser.HasPeriodFrom | server/services/excelParser.ts:62-64 | the period pattern matches iff a year, `Q1`-`Q4` or month token starts at some position |
| ExcelParser.NormalizeRowInPlace | server/services/excelParser.ts:54-57 | filling an array with `''` and copying the first `min` cells gives the normalized row |
| ExcelParser.CollectDataRows | server/services/excelParser.ts:49-59 | the filter-then-map over the rows below the header gives the data rows |
| ExcelParser.ParseExcelFile | server/services/excelParser.ts:14-80 | parsing the sheet returns the table `Parse` defines, or its error message |
| ExcelParser.Parse | server/services/excelParser.ts:14-80 | a failure is one of the two prefixed messages; a success has metadata naming the sheet and counting its rows and headers, and every data row as wide as the headers (`ParseFailures` and `ParseHeaderRow` give the cases) |
| ExcelParser.ParseFailures | server/services/excelParser.ts:27-46 | an empty sheet fails with "no data", an all-blank one with "no valid headers", and parsing succeeds iff a header row exists |
| ExcelParser.ParseHeaderRow | server/services/excelParser.ts:31-75 | for the header row `h`: headers are its trimmed cells (at least one); data rows come from the rows below it; metadata counts rows and columns |
| ExcelParser.DataRowsConcat | server/services/excelParser.ts:49-59 | data rows of concatenated rows are the concatenation of the data rows (order kept, blank rows dropped) |
| ExcelParser.DataRowsSingle | server/services/excelParser.ts:51-58 | a single row becomes a data row iff it has a non-blank cell |
| ExcelParser.DataRowsWidth | server/services/excelParser.ts:54 | every data row has exactly as many cells as there are headers |
| ExcelParser.NormalizeRowShape | server/services/excelParser.ts:54-57 | a long row is truncated, a short one padded with `''`, kept cells unchanged |
| ExcelParser.PeriodsAreMatchingHeaders | server/services/excelParser.ts:61-64 | a header is among the periods iff it is a header and contains a period token |
| ExcelParser.PeriodExamples | server/services/excelParser.ts:62-64 | "FY2023", "q3 Sales", "DECEMBER" and "Market value" are period labels, "Item" is not |
| ExcelParser.Clean | server/services/excelParser.ts:97 | the cleaned string is no longer and contains none of `$ , ( )` |
| ExcelParser.CleanIsFilter | server/services/excelParser.ts:97 | cleaning keeps, in order, exactly the characters other than `$ , ( )` |
| ExcelParser.CleanConcat | server/services/excelParser.ts:97 | cleaning works piecewise over concatenation |
| ExcelParser.CleanIdempotent | server/services/excelParser.ts:97 | cleaning twice is cleaning once |
| ExcelParser.CleanNegativeExample | server/services/excelParser.ts:127 | `"(1,234.50)"` cleans to `"1234.50"` |
| ExcelParser.CleanCurrencyExample | server/services/excelParser.ts:127 | `"$5,000"` cleans to `"5000"` |
| ExcelParser.CleanTextExample | server/services/excelParser.ts:127 | `"N/A"` is left as it is |
| ExcelParser.HasNumericData | server/services/excelParser.ts:95-100 | true iff some cell past column 0 cleans to a finite `parseFloat` |
| ExcelParser.ValidateFinancialData | server/services/excelParser.ts:82-115 | fails with the column error iff fewer than 2 headers; else with the row error iff fewer than 3 rows; else with the numeric error iff no numeric cell; passes otherwise |
| ExcelParser.CoerceCell | server/services/excelParser.ts:123-133 | the value assigned for a column is the coerced cell, `undefined` past the end of the row |
| ExcelParser.ConvertRow | server/services/excelParser.ts:121-137 | the `forEach` over the headers builds the record that assigns each header its coerced cell, in order |
| ExcelParser.ConvertToFinancialStructure | server/services/excelParser.ts:117-139 | one record per row, in row order, each the row's record |
| ExcelParser.SetProperty | server/services/excelParser.ts:135 | assigning `__proto__` on a `{}` leaves the record as it was; any other key is set to the value and no other key changes |
| ExcelParser.RecordFields | server/services/excelParser.ts:122-135 | under each header other than `__proto__` sits the coerced cell of the last column with that header |
| ExcelParser.RecordKeys | server/services/excelParser.ts:122-135 | a record's keys are exactly the headers other than `__proto__` |
| ExcelParser.Coerce | server/services/excelParser.ts:124-133 | a cell becomes a number iff it is past column 0 and cleans to a finite `parseFloat`; otherwise it stays the original string (`CoerceCases` gives the number) |
| ExcelParser.CoerceCases | server/services/excelParser.ts:125-133 | column 0 and non-numeric cells stay the original string; numeric cells become the parsed value, negated (as `-abs`) when the cell holds `(` |
| ExcelParser.NumericCheckAgreesWithConversion | server/services/excelParser.ts:95-133 | the validator's numeric check passes iff conversion stores some cell past column 0 as a number |
| ExcelParser.CoerceParsed | server/services/excelParser.ts:126-132 | a cell past column 0 parsing to `n` is stored as `n`, or `-abs(n)` with a `(` |
| ExcelParser.CoerceNegativeExample | server/services/excelParser.ts:126-132 | `"(1,234.50)"` in a value column is stored as -1234.5 |
| ExcelParser.CoerceCurrencyExample | server/services/excelParser.ts:126-132 | `"$5,000"` in a value column is stored as 5000 |
| ExcelParser.CoerceTextExample | server/services/excelParser.ts:126-133 | `"N/A"` in a value column stays the string `"N/A"` |
| Storage.NewAnalysis | server/storage.ts:41-56 | the record `createAnalysis` builds carries the fresh id, a non-empty status, and the current time as both timestamps (`NewAnalysisStatus`, `NewAnalysisJsonColumns` give the columns) |
| Storage.NewAnalysisStatus | server/storage.ts:41-59 | a new analysis has the given id, the given status or `processing`, and equal creation and update times |
| Storage.NewAnalysisJsonColumns | server/storage.ts:44-53 | each JSON column of a new analysis is its own argument when that is truthy and `null` otherwise; the other given columns are copied |
| Storage.Merge | server/storage.ts:69-73 | the spread record has the new `updatedAt` and keeps `createdAt` unless the update sets it (`MergeFields` gives every property) |
| Storage.MergeFields | server/storage.ts:69-73 | for each of the fourteen properties, the update's value when present, else the old value; `updatedAt` is the new time |
| Storage.MergeNothing | server/storage.ts:69-73 | an empty update only refreshes `updatedAt` |
| Storage.MergeCompose | server/storage.ts:69-74 | two updates in a row act as their spread combination |
| Storage.MergeIdempotent | server/storage.ts:69-74 | the same update twice is the update once, at the later time |
| Storage.SetKeepsOrder | server/storage.ts:57 | `Map.set` keeps the insertion order a list of distinct keys, with a new key last |
| Storage.RemoveKey | server/storage.ts:85 | the order after `Map.delete` holds exactly the other keys |
| Storage.RemoveKeepsOrder | server/storage.ts:85 | after `Map.delete` the order still lists each remaining key once |
| Storage.RemoveKeySplice | server/storage.ts:85 | `Map.delete` takes the key out of its place and keeps the other keys in their relative order; an absent key changes nothing |
| Storage.ValuesInOrder | server/storage.ts:79 | `Array.from(values())` lists the value of each key in insertion order |
| Storage.OwnedSelection | server/storage.ts:78-82 | an analysis is selected iff it is stored and its `userId` equals the argument |
| Storage.MemStorage.constructor | server/storage.ts:19-22 | the store starts with no users and no analyses |
| Storage.MemStorage.GetUser | server/storage.ts:24-26 | the user stored under the id, or none |
| Storage.MemStorage.GetUserByUsername | server/storage.ts:28-32 | none iff no user has the name; otherwise the first such user in insertion order |
| Storage.MemStorage.CreateUser | server/storage.ts:34-39 | stores `{...insertUser, id}` under `id`, appending a new key to the order; analyses unchanged |
| Storage.MemStorage.CreateAnalysis | server/storage.ts:41-59 | stores the new analysis under `id`; nothing else changes |
| Storage.MemStorage.GetAnalysis | server/storage.ts:61-63 | the analysis stored under the id, or none |
| Storage.MemStorage.UpdateAnalysis | server/storage.ts:65-76 | an absent id changes nothing and gives `undefined`; a present one is replaced by the merge, keeping its place |
| Storage.MemStorage.GetUserAnalyses | server/storage.ts:78-82 | the analyses owned by the user, in insertion order |
| Storage.MemStorage.DeleteAnalysis | server/storage.ts:84-86 | returns whether the id was present; afterwards it is absent and the others remain |
| AiAnalysis.ReplyText | server/services/openai.ts:57 | `content \|\| '{}'` is never empty and is the content when that is non-empty |
| AiAnalysis.ValidateAnalysisResult | server/services/openai.ts:120-129 | fails (TypeError) iff the reply is `null`/`undefined`; otherwise every property of the result is truthy |
| AiAnalysis.ResultValue | server/services/openai.ts:122-128 | the result object has exactly the five properties |
| AiAnalysis.AnalyzeFinancialData | server/services/openai.ts:33-63 | every error comes back prefixed with "Failed to analyze financial data: " |
| AiAnalysis.Sample | server/services/openai.ts:144 | the sample is the first `min(20, n)` records |
| AiAnalysis.DetectStatementType | server/services/openai.ts:131-160 | the detected type is always truthy, whatever the call or the parse does |
| AiAnalysis.ValidatePassesTruthy | server/services/openai.ts:122-128 | a truthy reply property passes through, a falsy or missing one takes its default |
| AiAnalysis.ValidateIgnoresOtherKeys | server/services/openai.ts:120-129 | replies agreeing on the five properties give the same result |
| AiAnalysis.ValidateIdempotent | server/services/openai.ts:120-129 | repairing a repaired result changes nothing |
| AiAnalysis.EmptyReplyDefaults | server/services/openai.ts:57-58 | an empty or `null` content gives the all-default result |
| AiAnalysis.NullReplyFails | server/services/openai.ts:57-62 | a reply of JSON `null` fails with the prefixed TypeError |
| AiAnalysis.DetectCases | server/services/openai.ts:154-159 | the type is the reply's truthy `statementType`, else `income_statement` |
| AiAnalysis.DetectUsesFirstTwenty | server/services/openai.ts:144 | detection over the records equals detection over their first 20 |
| AiAnalysis.DetectIgnoresTail | server/services/openai.ts:144 | record lists agreeing on their first 20 get the same type |
| Routes.CalculateFinancialRatios | server/routes.ts:239-249 | exactly the six ratio keys, each truthy |
| Routes.RatioRule | server/routes.ts:242-247 | each ratio is the truthy metric of that name, else its default |
| Routes.RatiosWithoutMetrics | server/routes.ts:239-249 | without truthy metrics every ratio is its default |
| Routes.RatiosIgnoreOtherMetrics | server/routes.ts:239-249 | metrics other than the six have no effect |
| Routes.GenerateChartData | server/routes.ts:222-236 | three labels and two datasets, "Current Period" and "Previous Period", of three values each |
| Routes.ChartRule | server/routes.ts:218-232 | each current value is the truthy metric or its default; each previous value is the current one times 0.94, 0.93 or 0.96 |
| Routes.PreviousNotAboveCurrent | server/routes.ts:232 | the simulated previous value never exceeds a non-negative current one, and is below a positive one |
| Routes.ChartDefaults | server/routes.ts:218-232 | without totals the chart shows 5200000/2800000/2400000 and 4888000/2604000/2304000 |
| Routes.ChartIgnoresRecords | server/routes.ts:205-216 | the chart does not depend on the records |
| Routes.ProgressOf | server/routes.ts:106-128 | the progress is between 0 and 100 |
| Routes.ProgressCases | server/routes.ts:106-128 | 100 iff completed; 60 iff processing with data; 20 iff processing without; 0 otherwise; the step text of each case; no step iff the status is unknown |
| Routes.RunOf | server/routes.ts:161-202 | a failed preparation makes the single write `failed`; otherwise the records are written first, the statement type second, and the third write completes the analysis or sets `failed`, as the analysis call ends |
| Routes.Prepare | server/routes.ts:163-166 | preparation succeeds iff parsing succeeds and validation passes, and then yields the converted records |
| Routes.PrepareCases | server/routes.ts:163-166 | preparation fails with the parser's error, else the validator's, else yields one record per data row (at least 3) |
| Routes.ApplyWrites | server/routes.ts:169-199 | applying writes keeps the set of stored ids |
| Routes.ApplyWritesFrame | server/routes.ts:169-199 | the writes touch no other analysis |
| Routes.PrepareData | server/routes.ts:163-166 | parse, validate and convert give the prepared records or the first error |
| Routes.ProcessFinancialFile | server/routes.ts:156-203 | the store afterwards is the stored analyses with the run's writes applied; the outcome is the run's |
| Routes.ProcessPrepared | server/routes.ts:168-202 | from prepared records, the writes performed are exactly the run's |
| Routes.SuccessfulRun | server/routes.ts:168-194 | after success the analysis is completed with the records, type, ratios, chart and reply fields; id, filename and creation time are kept |
| Routes.FailedRun | server/routes.ts:196-201 | after failure the analysis is `failed`; an early failure changes only the status and `updatedAt`; a late one keeps records and type |
| Routes.RunEnd | server/routes.ts:187-200 | a run ends completed at 100 per cent or failed at 0 per cent, as its outcome says |
| Routes.SuccessfulRunProgress | server/routes.ts:110-122 | after each write of a successful run on a fresh upload the reported progress is 20, 60, 60, then 100 |
| Routes.FailedTwice | server/routes.ts:59-65 | the handler's second `failed` write changes only the time |
| Routes.FailedStaysFailed | server/routes.ts:124-127 | a `failed` write yields status `failed` at 0 per cent |
| Routes.StartAnalysis | server/routes.ts:34-79 | rejects iff the depth is invalid, leaving analyses, users and both orders unchanged; otherwise the analyses are exactly the created record processed as `AfterBackground` says, the new id joins the order, the record ends completed/100 or failed/0, and no user changes |
| Routes.ProcessInBackground | server/routes.ts:59-65 | the analyses afterwards are exactly the run's writes followed, on failure, by the `.catch` write (`AfterBackground`); the record ends completed/100 or failed/0; the order and the users are unchanged |
| Routes.AfterBackground | server/routes.ts:59-65 | the run and the `.catch` write keep the set of stored ids |
| Routes.CatchOnlyRetimes | server/routes.ts:59-65 | after a failed run the `.catch` write changes only `updatedAt` |
| Routes.UploadRecordStart | server/routes.ts:43-56 | the record the upload handler creates is processing at 20 per cent, with the file's name, size and depth and no records |
| AnalysisProgress.GetStepStatus | client/src/components/analysis-progress.tsx:44-54 | pending without progress; failed iff the status is `failed`; every step completed when the status is `completed`; otherwise step `i` is completed iff the percentage exceeds `25i`, active iff it lies in `(25(i-1), 25i]`, pending iff it is at most `25(i-1)` |
| AnalysisProgress.ClientView | server/routes.ts:130-135 | the client sees the stored status and a percentage between 0 and 100 |
| AnalysisProgress.StepsDescend | client/src/components/analysis-progress.tsx:44-54 | a later step is never further along than an earlier one |
| AnalysisProgress.AtMostOneActive | client/src/components/analysis-progress.tsx:51-52 | at most one step is active |
| AnalysisProgress.SomeStepActive | client/src/components/analysis-progress.tsx:50-52 | while processing at 0 to 75 per cent some step is active |
| AnalysisProgress.ProgressNeverUndoes | client/src/components/analysis-progress.tsx:50-53 | more progress never moves a step back |
| AnalysisProgress.ServerProgressSteps | client/src/components/analysis-progress.tsx:44-54 | the four steps shown for each case of the server's progress switch |
| AnalysisProgress.NoProgressAllPending | client/src/components/analysis-progress.tsx:45 | nothing reported shows all four steps pending |

## Left out

- Reading the workbook (`XLSX.read`, `sheet_to_json`) is not modelled. The model starts from the first sheet as a grid of cell strings with `''` for empty cells. A workbook without sheets is therefore not modelled.
- The language-model calls and their prompts (`createAnalysisPrompt`, the `JSON.stringify` of the sample) are not modelled. The calls are parameters `ask` that return the reply content or the error message, and `JSON.parse` is a parameter `decode`.
- Express routing, multer, the MIME and size filter, and HTTP status codes are not modelled. The missing-file check and the 404 responses are part of this.
- `randomUUID()` and `new Date()` are parameters (`id`, `now`, `clock`, `catchTime`).
- The asynchronous processing and its `.catch` are modelled as running to the end before the upload handler returns (`StartAnalysis`). Interleaving with other requests is not modelled.
- Logging is not modelled. This includes the financial-vocabulary check of `validateFinancialData`, whose only effect is a `console.warn`.
- The text of Zod's error message for an invalid depth is not modelled.
- The key order of records and objects is not modelled (`FinancialRecord` is a map).
- The filters at routes.ts:208-215 compute values that are never used, so they are not modelled.
- Of the analysis-progress component, only `getStepStatus` and the percentage it reads are modelled. Polling and rendering are not.
- JsNumbers.ParseFloat: numbers are exact reals. IEEE-754 rounding and overflow of huge literals to `Infinity` are not modelled.
- JsNumbers.StringToNumber: hexadecimal, octal and binary literals read as `NaN`. Arrays and objects (in `ToNumber`) also read as `NaN` instead of going through their string form.
- AiAnalysis.ValidateAnalysisResult: the types of the nested fields (insight kinds, variance severities) are not checked, just as the source does not check them.
- Storage.AnalysisUpdate: the string and number properties (`id`, `filename`, `fileSize`, `analysisDepth`, `status`, `createdAt`) cannot be present with the value `undefined`; the JSON columns can (`Some(Missing)`). The processing in routes.ts never writes `undefined` to any property.
- AnalysisProgress.GetStepStatus: the percentage is always a number, so `progress.progress || 0` is the percentage itself.

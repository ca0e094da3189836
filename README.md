# transaction-tracker, modelled in Dafny

transaction-tracker fetches one wallet's transactions from Etherscan and writes four CSV
reports: external, internal, ERC-20 and ERC-721 transfers. This project models the
sequential core of that pipeline and proves properties of it:

- **Timestamp normalisation** (`Util`, `Strconv`, `Calendar`).
  - `StringToInt` models `strconv.ParseInt(s, 10, 64)`, with the int64 limits written out.
  - `FormatUnixTimestampString` gives `""` on a parse error and `"00-00-0000 00:00:00"` for 0.
  - Any other value is the UTC date, formatted with layout `2006-01-02 15:04:05`. Days are
    computed with floor division, in the proleptic Gregorian calendar.
  - The day-to-date conversion is proved against a closed-form days-before-year count.
  - The formatted text reads back to an instant that maps to the input second.
- **Generic CSV writing** (`Util`, `Reflect`, `Files`).
  - Go reflection becomes a static table of struct fields with csv tags.
  - The filesystem is a `FileStore` class: a map from path to records, plus the sets of
    directories and paths whose creation fails.
  - `WriteCSV` is a method proved against the pure `WriteCsvSpec`.
- **Category projection** (`Reports`).
  - The four row functions map records to the ten-field `ReportResponse`.
  - The four report methods project, resolve the working directory and write
    `<cwd>/files/reports/<wallet>_<category>_report.csv`.
- **Request URL and provider factory** (`Etherscan`, `Provider`).
  - `BuildRequestURL` is a loop that builds the query map.
  - `NewEtherscanProvider` fills in the default base URL.
  - `NewDataProvider` dispatches case-insensitively: Etherscan, the Blockscout "nil, nil"
    case, or an unknown-provider error.
- **Outcome aggregation** (`Reports`).
  - `GenerateReports` fetches, decodes the envelope and dispatches on the tag.
  - `GenerateTransactionReports` runs the four tasks in a given completion order and keeps
    the first error received.
  - It is proved against `RunSpec`. Lemmas show when a run succeeds, which error it returns,
    that each written report survives, and that the completion order does not change the
    files or whether the run succeeds.

The outside world is passed in as parameters of `Reports.Env`: the transport's answer to each
request, each JSON decoding, and `os.Getwd`.

Behaviour the model keeps exactly as the code has it:

- The seventh header is `"Asset Symbol Name"`, the csv tag at models/report.go:10.
- A timestamp that does not parse leaves the DateTime cell `""`. Each report discards the
  error of `FormatUnixTimestampString` (usecase/transaction_reports.go:146), which returns
  `""` with it (shared/util/util.go:34-35).
- Any casing of `"blockscout"` gives a nil provider and a nil error, because that case of
  the switch is empty (third-party/provider.go:32-35, 41). The run then panics on the nil
  interface, which is modelled as `RunOutcome.NilProviderPanic`.

## Model

| member | source | states |
|---|---|---|
| Util.StringToInt | shared/util/util.go:18-26 | no error exactly when the input is an optional sign and digits whose value fits in int64; then that value, otherwise 0 and an error carrying the input |
| Strconv.ParseInt | shared/util/util.go:20 | an accepted input yields a value inside the int64 range |
| Strconv.ParseUint | shared/util/util.go:20 | an accepted input yields a value inside the uint64 range |
| Strconv.ScanDigits | shared/util/util.go:20 | the digit scanner succeeds only when the rest of the input is digits, never lowers the running value, and stays inside the uint64 range when it starts there |
| Strconv.ParseIntCorrect | shared/util/util.go:20 | ParseInt succeeds exactly on int64 decimal literals, and returns the literal's value |
| Strconv.ParseUintCorrect | shared/util/util.go:20 | ParseUint succeeds exactly on non-empty digit strings whose value fits in uint64, and returns that value |
| Strconv.ScanDigitsCorrect | shared/util/util.go:20 | the scanner, resumed after a valid prefix, returns the whole value, a range error, or a syntax error |
| Strconv.ParseIntRejects | shared/util/util_test.go:26-37 | an empty input, or one containing a character that is neither a digit nor a sign, fails to parse |
| Strconv.FormatNat | shared/util/util.go:204-207 | the result is a non-empty digit string with no leading zero that denotes n |
| Strconv.FormatInt | shared/util/util.go:204-205 | a leading '-' exactly for a negative number, followed by the decimal digits of its magnitude |
| Strconv.FormatUint | shared/util/util.go:206-207 | a non-empty decimal digit string that denotes the number |
| Strconv.FormatBool | shared/util/util.go:211-212 | "true" for true and "false" for false, and no other text |
| Strconv.ParseIntOfFormatInt | shared/util/util.go:204-205 | parsing FormatInt(i) of an int64 gives back i |
| Strconv.ParseUintOfFormatUint | shared/util/util.go:206-207 | parsing FormatUint(u) of a uint64 gives back u |
| Strconv.FormatIntInjective | shared/util/util.go:204-205 | different int64 values format to different texts |
| Util.FormatUnixTimestampString | shared/util/util.go:31-61 | the error is StringToInt's; an error gives ""; 0 gives the sentinel; a four-digit-year instant gives date text whose read-back date maps to the input second |
| Util.FormatUnixTimestampExample | shared/util/util_test.go:14-19 | "1710298091" formats to "2024-03-13 02:48:11" with no error |
| Util.ExampleInstant | shared/util/util_test.go:14-19 | second 1710298091 is 2024-03-13 02:48:11 UTC |
| Util.ExampleFormats | shared/util/util_test.go:14-19 | that instant formats with the date layout to "2024-03-13 02:48:11" |
| Util.ExampleParses | shared/util/util_test.go:14-19 | "1710298091" parses to 1710298091 with no error |
| Util.FormatUnixTimestampEdgeCases | shared/util/util_test.go:20-37 | "0" gives the sentinel with no error; "" and a non-numeric text give "" and an error |
| Util.ZeroTimestampIsNotADate | shared/util/util.go:39-43 | the zero sentinel is not the text of any date, so it cannot be confused with a formatted instant |
| Util.DateLayoutIsDateFormat | shared/constants/constants.go:24 | the layout elements spell out exactly "2006-01-02 15:04:05" |
| Util.FormatDateTimeRoundTrip | shared/util/util.go:58 | a valid date with a four-digit year formats to 19-character YYYY-MM-DD HH:MM:SS text that reads back to the same date |
| Util.JoinDateFieldsSplit | shared/util/util.go:58 | the joined fields sit at their fixed positions, with the separators between them |
| Util.ReadJoinedFields | shared/util/util.go:58 | joined digit fields of widths 4,2,2,2,2,2 are date-shaped text that reads back to their values |
| Calendar.Format | shared/util/util.go:58 | literal layout characters are copied as they are; for a valid instant with a four-digit year the text is exactly as long as the layout string |
| Calendar.UnixToUtc | shared/util/util.go:47 | the UTC date of second t is a valid date whose Unix time is t |
| Calendar.UnixToUtcInverse | shared/util/util.go:47 | every valid date is the UTC date of its own Unix time |
| Calendar.FourDigitYears | shared/util/util.go:47 | t lies in the four-digit range exactly when its year is between 1 and 9999 |
| Calendar.CivilFromDays | shared/util/util.go:47 | the date of day z is valid and counts back to z |
| Calendar.CivilFromDaysInverse | shared/util/util.go:47 | every valid date is the date of its own day count |
| Calendar.YearOfCivil | shared/util/util.go:47 | the year split of a date's day count is that year and its day of the year |
| Calendar.YearAndDay | shared/util/util.go:47 | day z is a day within the returned year, counted from that year's first day |
| Calendar.YearInCycle | shared/util/util.go:47 | a day within a 400-year cycle splits into a year of the cycle and a day within that year |
| Calendar.CycleShift | shared/util/util.go:47 | shifting by 400-year cycles adds 146097 days per cycle and keeps leap years |
| Calendar.MonthAndDay | shared/util/util.go:47 | a day of the year splits into a valid month and day that count back to it |
| Calendar.MonthAndDayFinds | shared/util/util.go:47 | the month search returns the month and day a date started from |
| Calendar.DaysBeforeYearStep | shared/util/util.go:47 | each year adds its own length (365, or 366 in a leap year) to the day count |
| Calendar.LeapYearsStep | shared/util/util.go:47 | the closed-form leap-year count rises by one exactly at a leap year |
| Calendar.DaysBeforeYearEpoch | shared/util/util.go:47 | day 0 is 1970-01-01 |
| Calendar.DaysBeforeYearMonotone | shared/util/util.go:47 | each later year starts at least 365 days later |
| Calendar.YearUnique | shared/util/util.go:47 | a day count has only one year and day-of-year split |
| Calendar.DaysBeforeMonthStep | shared/util/util.go:47 | each month adds its own length to the day of the year |
| Calendar.DaysBeforeMonthMonotone | shared/util/util.go:47 | later months start later in the year |
| Calendar.AppendIntField | shared/util/util.go:58 | a field that fits its width is zero-padded to exactly that width, and its digits denote the value |
| Calendar.FormatNatLength | shared/util/util.go:58 | a number below 10^k has at most k digits |
| Calendar.ZerosPrefixValue | shared/util/util.go:58 | leading zeros do not change the value of a digit string |
| Util.GetCurrentWorkingDirectory | shared/util/util.go:66-72 | the directory when os.Getwd answers, otherwise the working-directory error |
| Util.ValueToString | shared/util/util.go:200-228 | a nil pointer or interface reads "", a string its own text, a bool "true" or "false" by its value, each after following every pointer and interface |
| Util.ValueToStringDeref | shared/util/util.go:223-228 | a non-nil pointer or interface shows what it ends up holding; a nil one shows "" |
| Util.ValueToStringInt | shared/util/util.go:204-205 | an int64 cell is its base-10 text, which parses back to it |
| Util.ValueToStringUint | shared/util/util.go:206-207 | a uint64 cell is its base-10 text, which parses back to it |
| Util.ValueToStringBool | shared/util/util.go:211-212 | a bool cell is "true" exactly when true and "false" exactly when false |
| Util.ExportedIndices | shared/util/util.go:103-112 | the exported fields are exactly those whose tag is neither "" nor "-", in declaration order |
| Util.SomeFieldExported | shared/util/util.go:158-165 | there is a header exactly when some field carries an export tag |
| Util.ExportMetadata | shared/util/util.go:97-138 | the loop collects the exported field indices and their tags as headers |
| Util.BuildRecord | shared/util/util.go:168-187 | the loop builds one cell per exported field, as that field's text, in header order |
| Util.WriteCSV | shared/util/util.go:85-196 | returns WriteCsvSpec's error and leaves WriteCsvSpec's file at the path, with no other path changed |
| Util.WriteRecords | shared/util/util.go:158-187 | on the created file: the no-tag error with the file left empty, or the header row and then one row per item |
| Util.WriteRows | shared/util/util.go:168-187 | appends one row per item, in input order |
| Util.WriteCsvSucceeds | shared/util/util.go:97-165 | no error exactly when the data is a struct slice, both filesystem steps succeed, and either some field is tagged or there is no data |
| Util.WriteCsvContents | shared/util/util.go:158-187 | a written file has 1 + len(data) records: the headers, then each item's exported fields as text, cell i under header i |
| Util.HeaderThenRows | shared/util/util.go:158-187 | the header row followed by one row per item, each cell the text of its exported field |
| Util.WriteCsvEmptyData | shared/util/util.go:113-138 | no items: success, with the header row alone (nothing when nothing is tagged) |
| Util.WriteCsvNoTags | shared/util/util.go:158-165 | items but no tagged field: an error, and the file is left created and empty |
| Util.WriteCsvSpec | shared/util/util.go:85-196 | a file is left at the path exactly when the type is a struct and both the directory and the file could be created; success always leaves a file with at least one record per item |
| Files.LastSlash | shared/util/util.go:141-144 | the position of the last '/' of the path, or -1 when there is none |
| Files.Dir | shared/util/util.go:141 | "." for a path without '/'; otherwise the part before the last '/', or "/" when that '/' is the first character |
| Files.JoinParts | shared/util/util.go:141 | the directory of dir + "/" + name, for a name without '/', is dir |
| Files.FileStore.MkdirAll | shared/util/util.go:141-144 | fails, with the directory in the error, exactly on a directory that cannot be created |
| Files.FileStore.Create | shared/util/util.go:147-151 | fails exactly on a path that cannot be created, changing nothing; otherwise the file exists and is empty (truncated) |
| Files.FileStore.Write | shared/util/util.go:158-187 | appends one record to the file and changes nothing else |
| Models.ReportFieldsAreText | models/report.go:3-14 | all ten fields are strings, so each field's cell is its text verbatim |
| Reports.ReportTags | models/report.go:4-13 | field i carries the i-th header as its csv tag, and every tag is exported |
| Reports.ReportMetadata | models/report.go:4-13 | all ten fields are exported, in declaration order, with the ten headers |
| Reports.AllTagged | shared/util/util.go:103-112 | when every field is tagged, every field is exported, in order |
| Reports.ReportHeadersDistinct | models/report.go:4-13 | there are ten headers, pairwise distinct, and the seventh is "Asset Symbol Name" |
| Reports.ReportRowCells | models/report.go:4-13 | a report row written through the metadata is its ten field texts |
| Constants.CategoryOfTag | shared/constants/constants.go:7-10 | finds the category whose tag the text is, or reports that no category has it |
| Constants.TagsDistinct | shared/constants/constants.go:7-10 | the four category tags are pairwise distinct |
| Constants.ActionsDistinct | shared/constants/constants.go:12-15 | the four action codes are pairwise distinct |
| Constants.TypeLabelsDistinct | shared/constants/constants.go:17-20 | the four transaction-type labels are pairwise distinct |
| Reports.DateTimeCell | usecase/transaction_reports.go:146 | "" exactly when the timestamp does not parse; otherwise the sentinel, or for four-digit years the UTC date text of the timestamp |
| Reports.ExternalRow | usecase/transaction_reports.go:146-158 | copies hash, from, to, contract, value and gas; type "ETH Transfer", symbol "ETH", token ID ""; DateTime is the DateTimeCell of the timestamp: "" when it does not parse, else the sentinel, or for four-digit years the UTC date text |
| Reports.InternalRow | usecase/transaction_reports.go:193-205 | the same copied fields, with type "Internal", symbol "ETH" and token ID ""; DateTime is the DateTimeCell of the timestamp: "" when it does not parse, else the sentinel, or for four-digit years the UTC date text |
| Reports.Erc20Row | usecase/transaction_reports.go:238-250 | symbol is TokenSymbol + " " + TokenName, type "ERC-20 Transfer", token ID ""; DateTime is the DateTimeCell of the timestamp: "" when it does not parse, else the sentinel, or for four-digit years the UTC date text |
| Reports.Erc721Row | usecase/transaction_reports.go:284-296 | token ID copied, value taken from TransactionIndex, symbol TokenSymbol + " " + TokenName, type "ERC-721 Transfer"; DateTime is the DateTimeCell of the timestamp: "" when it does not parse, else the sentinel, or for four-digit years the UTC date text |
| Reports.ProjectRows | usecase/transaction_reports.go:143-159 | one row per record, same length and order, row i the projection of record i |
| Reports.MapRows | usecase/transaction_reports.go:143-159 | one row per record, in order, row i the projection of record i |
| Reports.ReportPathsDistinct | usecase/transaction_reports.go:167 | the four reports of one wallet go to four different paths |
| Reports.ReportPath | usecase/transaction_reports.go:167 | the path ends with the wallet address followed by the category's file suffix |
| Reports.ReportPathDir | usecase/transaction_reports.go:167 | for a wallet address without '/', the directory that WriteCSV creates is <cwd>/files/reports |
| Reports.CategoryReport | usecase/transaction_reports.go:129-176 | returns ReportSpec's error and writes ReportSpec's file, and nothing else |
| Reports.ExternalReport | usecase/transaction_reports.go:129-176 | returns ReportSpec's error for the external decoding and projection, and writes its file |
| Reports.InternalReport | usecase/transaction_reports.go:178-221 | the same, for internal transfers |
| Reports.Erc20Report | usecase/transaction_reports.go:223-267 | the same, for ERC-20 transfers |
| Reports.Erc721Report | usecase/transaction_reports.go:269-313 | the same, for ERC-721 transfers |
| Reports.ReportOutcome | usecase/transaction_reports.go:129-176 | a report succeeds exactly when decoding succeeds and the list is empty, or the directory and file can be made; an empty list writes nothing |
| Reports.ReportFileContents | usecase/transaction_reports.go:143-172 | a written report holds the ten headers, then one row per record, in record order, with that record's projected fields |
| Reports.ReportCsvFile | usecase/transaction_reports.go:168-172 | a written report CSV is the headers followed by each row's ten cells |
| Reports.ReportCsvRows | usecase/transaction_reports.go:168-172 | a written report CSV is the header row followed by the rows written through the metadata |
| Reports.ReportSpecWritten | usecase/transaction_reports.go:161-172 | a report writes only after a non-empty decode and a working directory, to the category's path |
| Reports.ReportSpec | usecase/transaction_reports.go:129-176 | a decode error is returned as it is and writes nothing; a report that neither fails nor writes had an empty list |
| Reports.GenerateReports | usecase/transaction_reports.go:91-127 | returns GenerateReportsSpec's error and leaves its file, and nothing else |
| Reports.GenerateReportsSpec | usecase/transaction_reports.go:91-127 | a file is written only after the fetch and the envelope decoding both succeeded |
| Reports.EnvelopeStatusIgnored | usecase/transaction_reports.go:103-119 | once fetched and decoded, the outcome depends only on the envelope's result payload, not on its status or message |
| Reports.UnmatchedTagDoesNothing | usecase/transaction_reports.go:110-126 | a tag of no category writes nothing, and succeeds once the fetch and the envelope do |
| Reports.TagSelectsCategory | usecase/transaction_reports.go:110-119 | each category's tag selects that category's report |
| Reports.WrittenPath | usecase/transaction_reports.go:167 | a task can only write the file that its tag's category names under the working directory |
| Reports.ActionTagMapIsCategories | usecase/transaction_reports.go:29-34 | the map pairs each category's tag with its action and holds only the four tags |
| Reports.ScheduleKeys | usecase/transaction_reports.go:44-59 | a completion order names each of the four keys exactly once |
| Reports.FirstReceived | usecase/transaction_reports.go:73-78 | the first error received, or nil when the channel is empty |
| Reports.RunTasks | usecase/transaction_reports.go:44-59 | the channel holds each failing task's error wrapped with its key, in completion order; the files are those the tasks leave |
| Reports.GenerateTransactionReports | usecase/transaction_reports.go:15-89 | the outcome and the files are those of RunSpec for the given completion order |
| Reports.RunSpec | usecase/transaction_reports.go:15-89 | a run that fails in the provider factory or panics on the nil provider leaves every file as it was |
| Reports.ChannelErrors | usecase/transaction_reports.go:53-57 | at most one error per finished task, each wrapped with the key of a task in the order |
| Reports.RunFiles | usecase/transaction_reports.go:44-59 | the tasks only add or overwrite files, so every file present before the run is present after it |
| Reports.RunStep | usecase/transaction_reports.go:44-59 | one more task adds its wrapped error to the channel and writes its file over the others |
| Reports.TaskOfKey | usecase/transaction_reports.go:44-59 | the task for a key runs GenerateReports with that key's action and the key as its tag |
| Reports.RunSpecOfProvider | usecase/transaction_reports.go:44-88 | with a provider, the run returns the first channel error and leaves the tasks' files |
| Reports.ChannelErrorsEmpty | usecase/transaction_reports.go:53-57 | the channel is empty exactly when no task reported an error |
| Reports.ChannelErrorsFirst | usecase/transaction_reports.go:53-57 | the first channel error is the wrapped error of the first failing task in the order |
| Reports.RunFilesWritten | usecase/transaction_reports.go:44-59 | a task's file is present at the end of the run, when task paths are apart and each task runs once |
| Reports.RunFilesUntouched | usecase/transaction_reports.go:44-59 | a path no task writes is left as it was |
| Reports.RunFilesSamePath | usecase/transaction_reports.go:44-59 | two orders of the same tasks agree on each path |
| Reports.RunFilesOrderIrrelevant | usecase/transaction_reports.go:44-59 | two orders of the same tasks leave the same files |
| Reports.TasksApart | usecase/transaction_reports.go:167 | the report tasks of one run write different paths |
| Reports.WrittenPathsDistinct | usecase/transaction_reports.go:167 | two different keys never write the same path |
| Reports.OrderCovers | usecase/transaction_reports.go:44-59 | all tasks in an order succeed exactly when every key's task succeeds |
| Reports.RunSucceeds | usecase/transaction_reports.go:17-88 | the run returns nil exactly when the factory yields a provider and all four tasks succeed |
| Reports.RunError | usecase/transaction_reports.go:17-88 | a returned error is either the factory's unknown-provider error, with no file touched, or the error of a failing task wrapped with its key, where every task before it in the completion order succeeded |
| Reports.BlockscoutRunPanics | usecase/transaction_reports.go:17-21 | any casing of "blockscout" ends in the nil-provider panic, with no file written |
| Reports.RunKeepsEachReport | usecase/transaction_reports.go:44-59 | every report a task writes is in place at the end, even if another task failed |
| Reports.RunOrderKeepsFiles | usecase/transaction_reports.go:44-59 | any two completion orders leave the same files |
| Reports.RunOrderKeepsSuccess | usecase/transaction_reports.go:73-88 | any two completion orders either both succeed or both fail |
| Etherscan.NewEtherscanProvider | third-party/etherscan.go:21-40 | an empty base URL becomes the Etherscan default and a non-empty one is kept; the API key is copied; the list parameters are the four defaults |
| Etherscan.BuildRequestURL | third-party/etherscan.go:42-62 | the loop yields the provider's base URL and the query QuerySpec: the call parameters, then the list parameters over them |
| Etherscan.NoneSetYet | third-party/etherscan.go:53-57 | before the loop the query is the three call parameters |
| Etherscan.SetOneMore | third-party/etherscan.go:53-57 | setting one more list parameter moves that key from pending to set |
| Etherscan.QueryKeys | third-party/etherscan.go:47-57 | the query's keys are address, action, apikey and the list-parameter keys |
| Etherscan.QueryCallValues | third-party/etherscan.go:47-50 | unless a list parameter overrides it, address is the wallet, action the action and apikey the provider's key |
| Etherscan.ListParamsWin | third-party/etherscan.go:53-57 | a list parameter wins over a call parameter with the same key |
| Etherscan.NoListParams | third-party/etherscan.go:53-57 | with no list parameters, the query is just the three call parameters |
| Etherscan.DefaultQuery | third-party/etherscan.go:27-50 | a constructed provider sends exactly seven parameters, with their values |
| Etherscan.FetchTransactionData | third-party/etherscan.go:65-72 | the body passes through on success; on failure "" and the error |
| Provider.ToLower | third-party/provider.go:26 | lower-cases each ASCII letter and keeps every other character, keeping the length |
| Provider.LowerChar | third-party/provider.go:26 | an upper-case ASCII letter becomes its lower-case letter; any other character is kept |
| Provider.ToLowerMatches | third-party/provider.go:26-35 | the lower-cased text equals a lower-case word exactly when the text is a casing of it |
| Provider.ProviderNamesLowerCase | shared/constants/constants.go:4-5 | both provider names are lower-case already |
| Provider.LowerWordFixed | shared/constants/constants.go:4-5 | lower-casing leaves a lower-case word unchanged |
| Provider.NewDataProvider | third-party/provider.go:21-42 | a provider never comes with an error |
| Provider.NewDataProviderEtherscan | third-party/provider.go:26-29 | any ASCII casing of "etherscan", and nothing else, gives an Etherscan provider built from the Etherscan settings, with no error |
| Provider.NewDataProviderBlockscout | third-party/provider.go:32-35 | any ASCII casing of "blockscout", and nothing else, gives no provider and no error |
| Provider.NewDataProviderUnknown | third-party/provider.go:37-41 | any other text gives the unknown-provider error, quoting the text as given |
| Provider.NewDataProviderIgnoresBlockscout | third-party/provider.go:29 | the Blockscout settings never change the factory's result |

## Left out

- Goroutines, the WaitGroup and the buffered channel (usecase/transaction_reports.go:38-68). These are concurrency. The four tasks run one after another in a given completion order, and all orders are quantified over.
- The shared `err` variable that every goroutine assigns (usecase/transaction_reports.go:52) is a data race. In the model each task's error is its own, so a task cannot observe a sibling's error.
- The HTTP transport (`TriggerHttpRequest` in shared/util/http.go) and the `http.Client` are network I/O. A fetch is the result the transport gave, passed in through `Reports.Env`.
- JSON decoding of the envelope and of the four record lists is a library call. Each decoding is a function in `Reports.Env`, and a failure is an abstract error.
- Byte-level CSV quoting in `encoding/csv` is not modelled. A file is its sequence of records.
- Util.WriteCSV: does not model failures of `writer.Write`, which the source returns for the header (shared/util/util.go:159-161) and for each row (183-186), nor a failing `writer.Error()` check (190-192). In the model every write succeeds, because a file is a sequence of records and no byte-level writer exists.
- Errors from the deferred `writer.Flush` (shared/util/util.go:155) are not modelled. The source does not report them either, because the flush runs after the `writer.Error()` check.
- `filepath.Join` cleaning is not modelled.
  - `Reports.ReportPath` assumes a clean working directory and a wallet address without `/`.
  - `Files.Dir` splits at the last `/` without cleaning the path.
- `os.MkdirAll`, `os.Create` and `os.Getwd` are filesystem calls. Their failures are the sets and the optional directory given to the model.
- `Provider.ToLower`: does not implement Unicode case mapping; only ASCII letters are lower-cased. Go's `strings.ToLower` also maps, for example, U+212A KELVIN SIGN to 'k', so "BLOC\u212ASCOUT" takes the empty Blockscout case in the source (nil provider, nil error, then the panic) but gives `UnknownProvider` in the model. The "and nothing else" of `Provider.NewDataProviderEtherscan` and `Provider.NewDataProviderBlockscout` holds within ASCII lowering.
- `url.Values.Encode` percent-encoding and key sorting are not modelled. The URL is the base URL and the parameter map.
- The float, `time.Time`, struct and default branches of `valueToString` (shared/util/util.go:208-222, 229-234) need floating point and `%v` formatting. Only the string, integer, unsigned, bool, pointer and interface kinds are modelled.
- Util.FormatUnixTimestampString: proves the date shape only for instants with four-digit years (-62135596800 to 253402300799). Outside that range the model still formats a date, but Go's year-field rules and int64 overflow of time values are not modelled.
- Integer widths below 64 bits (`int8` to `int32`, `uint8` to `uint32`) are not distinguished in `Reflect.Value`.
- `Errors.Error.Message`: models only the fixed message prefixes of the source's `fmt.Errorf` calls, not the text of the wrapped cause.
- The `Retries` setting is never read by the source and has no effect in the model.
- The `*http.Client` field of the Etherscan provider is not modelled.
- `main.go` (entry point, YAML loading, timing, `os.Exit`), `providers.go` (an unwired placeholder) and all `fmt.Printf` logging are not part of this model.

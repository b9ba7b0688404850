# UAdata export scripts, modelled in Dafny

UAdata is a set of Python scripts. They page through a Universal Analytics
(Reporting API v4) view and store what they get: CSV files opened in append
mode, JSON dumps overwritten on every page, or tab-separated printouts. A last
script, `combine.py`, merges the full-range page exports into one table tagged
with each file's date range.

This project models the logic that remains once the Google client, pandas and
the operating system are taken away:

- `DateWindows`
  - The weekly window generator. Its end date is exclusive: the windows
    `[s + 7i, min(s + 7(i + 1), end) - 1]` cover `[start, end)`.
  - The daily generator. Its end date is inclusive: `start` through `end`.
  - Dates are day ordinals: 2017-05-15 is 736464, and 2023-08-07 is 738739.
- `Reports`: the parts of a batchGet response that the scripts read.
- `CsvSink`: `write_to_csv` as functions on a file's records.
  - The header (dimension names, then metric names) is written only to an
    empty file.
  - Each data record is the row's dimensions followed by its first metric
    set's values.
  - A row without a metric set raises `IndexError` and ends the script.
  - The events file takes only the reports whose dimension list is exactly
    `[ga:pagePath, ga:eventCategory, ga:eventAction, ga:eventLabel]`.
- `Storage`: the output directory as a class (`FileSystem`).
  - Its CSV files are sequences of records. Its methods append one record at
    a time, as `writer.writerow` does.
  - Its JSON files hold the response they were last dumped from.
- `Requests`: the report requests each script sends.
- `Pagination`: the cursor loop.
  - Each page is written to every sink before the next request.
  - Only `reports[0].nextPageToken` is read. That same token goes into every
    report request of the next batch.
  - The loop stops at the first falsy token.
  - It also ends on an error: a page with no reports (`IndexError`), or a row
    without metrics.
  - The Report Source is a finite list of pages. A request past its end is a
    source failure.
- `Scripts`: the `main` functions.
  - `all_pages_events.py`: one paginated loop per weekly window. Each week's
    main CSV is then read back for the spreadsheet, which raises when the file
    is empty or its header lacks a page metric, and that ends the script.
  - `all_pages_events_full.py`: one loop over the fixed range.
  - `ua_pages.py`: one loop with a single sink.
  - `all_traffic.py`: one unpaginated request per day, with per-day CSV and
    JSON files. Each day's CSV is then read back for the spreadsheet, which
    raises when the file is empty, so a day with no report ends the script
    when that day's CSV did not exist before. On a rerun the append adds
    nothing, and the script goes on when the earlier file reads back.
- `DeviceLines`: `print_response` of `all_devices.py` and its `main`.
  - Printed output is a list of lines.
  - Every report prints its own header line, and then its rows, tab-joined.
- `Combine`: `combine.py`.
  - Only `.csv` names are considered.
  - The date range comes from the leftmost match of
    `\d{4}-\d{2}-\d{2}_to_\d{4}-\d{2}-\d{2}`.
  - Each file's records are tagged with `start_date`/`end_date`.
  - The tagged records are concatenated. With no matching file, the
    concatenation raises.

The weekly generator's end date is exclusive: the loop at
`src/all_pages_events.py:116-118` runs while `current < end` and ends a window
at `min(next, end) - 1`. From 2023-01-01 to 2023-01-10 it yields (01-01, 01-07)
and (01-08, 01-09), and the day `end` itself is never requested.
`DateWindows.WeeklyScenario` proves this, and `DateWindows.WeeklyRunSpan`
proves that the real run stops at 2023-08-06. The daily generators include
their end date.

## Model

| member | source | states |
|---|---|---|
| DateWindows.WeeklyDateRanges | src/all_pages_events.py:114-119 | the generator's loop yields exactly `WeeklyWindows(start, end)`: window i is `[start + 7i, min(start + 7(i+1), end) - 1]` |
| DateWindows.WeekCountBounds | src/all_pages_events.py:116-118 | for start < end the loop runs n >= 1 times, where the n-th window starts before end and its successor would start at or after end |
| DateWindows.WeeklyWindowsShape | src/all_pages_events.py:114-119 | start >= end yields no window; every window lies in `[start, end)`, is non-empty and spans at most 7 days |
| DateWindows.WeeklyWindowsContiguous | src/all_pages_events.py:117-119 | each window starts the day after the previous one ends |
| DateWindows.WeeklyWindowsEnds | src/all_pages_events.py:114-119 | for start < end the first window starts at start and the last ends at end - 1 (end is exclusive) |
| DateWindows.WeeklyWindowsCover | src/all_pages_events.py:114-119 | a day lies in some window iff start <= d < end, and then in exactly one |
| DateWindows.WeeklyScenario | src/all_pages_events.py:114-119 | from day s to end s + 9 (e.g. 2023-01-01 to 2023-01-10) the windows are [s, s+6] and [s+7, s+8]: the last ends the day before end |
| DateWindows.WeeklyRunSpan | src/all_pages_events.py:145-150 | 2017-05-15..2023-08-07 gives 325 full weeks, the last ending 2023-08-06 |
| DateWindows.DailyDates | src/all_traffic.py:75-79 | the loop yields exactly `DailyDays(start, end)` |
| DateWindows.DailyDaysExact | src/all_devices.py:66-70 | every day from start through end inclusive, ascending, each once; count end - start + 1, none when start > end |
| CsvSink.RowsWrittenStopsAtMissingMetrics | src/all_pages_events.py:88-91 | record k is row k's dimensions plus its first metric set; the write completes iff every row has a metric set, and otherwise stops at the first row without one |
| CsvSink.WriteReportsAppendOnly | src/all_pages_events.py:77-91 | the file before the write is a prefix of the file after it |
| CsvSink.NoHeaderOnNonEmptyFile | src/all_pages_events.py:84-86 | a non-empty file gets no header, only the data records of every report in order |
| CsvSink.HeaderOnceOnEmptyFile | src/all_pages_events.py:79-91 | an empty file gets exactly one header, the first report's, followed by the data of all reports, both report shapes in the main file |
| CsvSink.RowsWrittenStuck | src/all_pages_events.py:88-91 | once a row without metrics raised, later rows add nothing |
| CsvSink.DataOfOkIffMetrics | src/all_pages_events.py:88-91 | the data of a response completes iff every row of every report has metrics, and then has one record per row |
| CsvSink.WriteReportsOkIffMetrics | src/all_traffic.py:54-67 | write_to_csv completes iff every row of every report has a metric set |
| CsvSink.WriteReportsConcat | src/all_pages_events.py:79-91 | writing two lists of reports is writing the first, then the second onto the result unless the first raised |
| CsvSink.WriteEventsConcat | src/all_pages_events.py:95-108 | the same for the events file |
| CsvSink.EventReportsFilter | src/all_pages_events.py:95-96 | a report is routed to the events file iff it is in the response and its dimension list equals the four event dimensions |
| CsvSink.EventsFileTakesOnlyEventReports | src/all_pages_events_full.py:93-108 | the events file is written exactly as write_to_csv would write the event-shaped reports alone; other reports leave it unchanged |
| CsvSink.MainOkThenEventsOk | src/all_pages_events.py:76-108 | when the main file's loop completes, the events loop cannot raise |
| CsvSink.RowsWrittenStep | src/all_pages_events.py:88-91 | one more row adds its data record, or raises when it has no metric set |
| CsvSink.WriteReportsStep | src/all_pages_events.py:79-91 | one more report is written onto the file left by the earlier ones |
| CsvSink.WriteEventsStep | src/all_pages_events.py:95-108 | one more report changes the events file only when it is event-shaped |
| Storage.WriteReportsStuck | src/all_traffic.py:54-67 | after an exception, the remaining reports change nothing |
| Storage.WriteEventsStuck | src/all_pages_events.py:95-108 | the same for the events file |
| Storage.FileSystem.constructor | src/all_pages_events.py:77 | the run starts from the directory as it is: files opened in append mode keep the records an earlier run left |
| Storage.FileSystem.Open | src/all_traffic.py:52 | opening in append mode creates a missing file and keeps an existing one |
| Storage.FileSystem.AppendLine | src/all_traffic.py:62 | writerow appends one record to one file and changes nothing else |
| Storage.FileSystem.AppendRows | src/all_traffic.py:64-67 | the file gains the records of `RowsWritten(rows)`; ok iff no row lacked metrics |
| Storage.FileSystem.AppendReport | src/all_traffic.py:55-67 | the file becomes `WriteReport(old file, report)`: the header only if it was empty, then the rows |
| Storage.FileSystem.WriteToCsv | src/all_traffic.py:51-67 | the file becomes `WriteReports(old file, reports)`; no other file changes |
| Storage.FileSystem.WriteEventsTo | src/all_pages_events.py:93-108 | the events file becomes `WriteEvents(old file, reports)`: only event-shaped reports are written, with a header only on an empty file |
| Storage.FileSystem.WriteToCsvAndEvents | src/all_pages_events_full.py:76-108 | the main file becomes `WriteReports`, then the events file `WriteEvents`; an exception in the main loop leaves the events file untouched |
| Storage.FileSystem.WriteToJson | src/all_pages_events.py:110-112 | the JSON file is replaced by the response; CSV files are unchanged |
| Requests.AllPagesBatch | src/all_pages_events.py:24-74 | two report requests for the window, both carrying the same page token; only the second has the event dimensions |
| Requests.UaPagesBatch | src/ua_pages.py:16-51 | one request from 2014-11-01 to 400daysAgo carrying the page token |
| Requests.TrafficBatch | src/all_traffic.py:26-48 | one request for the single day, with no page token |
| Requests.DevicesBatch | src/all_devices.py:21-46 | one request for the single day, with no page token |
| Pagination.StopIndex | src/all_pages_events.py:166-168 | the first page without a truthy `reports[0].nextPageToken`; every earlier page continues |
| Pagination.StopIndexUnique | src/all_pages_events.py:159-168 | only the first stopping page decides where the loop stops |
| Pagination.ThreePageScenario | src/all_pages_events_full.py:150-159 | tokens "a", "b", none, rows with metrics: the loop finishes after exactly three requests, the main file takes the three pages' reports in order, and the JSON file holds the third page |
| Pagination.RequestsFor | src/all_pages_events.py:159-161 | one request batch per request made |
| Pagination.RequestsCarryPreviousToken | src/ua_pages.py:75-85 | the first request has no token; request j carries `reports[0].nextPageToken` of page j - 1 |
| Pagination.AllPagesRequestsShareToken | src/all_pages_events.py:54-70 | both report requests of every batch carry the same token, the one read from the previous page |
| Pagination.RunFrom | src/all_pages_events.py:160-168 | the loop's end from request k on makes at least k and at most \|pages\| requests |
| Pagination.RunLoop | src/all_pages_events_full.py:150-159 | the loop makes at most \|pages\| requests, at least one unless the source fails first |
| Pagination.RunFromEnds | src/all_pages_events.py:159-168 | from any request before the stop, the loop ends as `EndsAsSpecified` says |
| Pagination.RunLoopEnds | src/all_pages_events_full.py:150-159 | the loop stops right after the first tokenless page (requests = its index + 1), or at the first row without metrics, or at a page with no reports (IndexError), or when the source runs out before a stopping page |
| Pagination.AllReportsStep | src/all_pages_events.py:161-162 | the reports written after k + 1 pages are those of k pages followed by page k's |
| Pagination.MainAfterPages | src/all_pages_events.py:159-168 | after k pages the main file is `WriteReports` of the reports of pages 0..k-1, in order |
| Pagination.EventsAfterPages | src/all_pages_events.py:159-168 | after e pages the events file is `WriteEvents` of the reports of pages 0..e-1 |
| Pagination.MainStep | src/all_pages_events.py:162 | writing page k to the main file extends the state after k pages to the state after k + 1 |
| Pagination.EventsStep | src/all_pages_events.py:162 | the same for the events file |
| Pagination.MainAndEventsStep | src/all_pages_events.py:76-108 | both sinks step together, and the events write cannot fail when the main write succeeded |
| Pagination.WriteCsvWithEvents | src/all_pages_events.py:162 | write_to_csv of page k takes the files from their state after k pages to the state after k + 1 |
| Pagination.WriteCsvMainOnly | src/ua_pages.py:80 | the same with a single sink |
| Pagination.WriteCsv | src/all_pages_events.py:162 | write_to_csv of page k moves the CSV files from their state after k pages to the state after k + 1, the events file only when the main file's loop completed |
| Pagination.JsonAfterStep | src/all_pages_events.py:110-112 | dumping page k over the JSON file the first k pages left gives the file after k + 1 pages: only the latest page remains |
| Pagination.WritePage | src/all_pages_events.py:162-163 | page k is written to the CSV sinks and then, when that succeeded, dumped to the JSON file |
| Pagination.LoopFrame | src/all_pages_events.py:159-168 | the loop changes no CSV file but its sinks and no JSON file but its own |
| Pagination.LoopJsonLastPage | src/all_pages_events.py:159-168 | after the loop the JSON file holds exactly the last page written; earlier pages are overwritten |
| Pagination.LoopLocal | src/all_pages_events.py:159-168 | the loop's effect on its sinks depends only on those sinks' earlier contents |
| Pagination.FetchStep | src/all_pages_events.py:160-168 | one iteration: request, write, read the token; either continue with the next token or end as `RunFrom` says |
| Pagination.FetchPages | src/all_pages_events.py:159-168 | the loop's outcome and request count are `RunLoop`'s; requests carry the previous page's token; the sinks hold exactly the pages written, in order |
| Scripts.WeeksFrom | src/all_pages_events.py:150-173 | one loop outcome and one read-back result per window run, in order, after the earlier ones |
| Scripts.RunWeekly | src/all_pages_events.py:150-173 | the windows are run in order, each to its loop's end and then read back by process_csv_to_excel; every window before the last finished and read back; all windows are done iff the last one finished and read back |
| Scripts.RunWindows | src/all_pages_events.py:150-173 | the windows are run in order until a loop or the read-back raises; those run are a prefix, each before the last finished and read back, and all are run iff the last finished and read back |
| Scripts.RunWeek | src/all_pages_events.py:153-168 | window i's loop takes the files from the state after windows 0..i-1 to the state after windows 0..i, adding its outcome and whether its main file reads back |
| Scripts.WeeksFromUntouched | src/all_pages_events.py:153-155 | a window not run leaves its three files as they were |
| Scripts.EachWeekItsOwnFiles | src/all_pages_events.py:150-168 | each window's CSV, events and JSON files, its loop outcome and whether its main file reads back are exactly what that window's own loop makes of the original files |
| Scripts.EventsOnlyWeekEndsRun | src/all_pages_events.py:121-132 | a week whose one page holds only an events-shaped report, on a new main file, finishes its loop, but its main file is just that header, which names no page metric, so the read-back raises and the run ends after that week |
| Scripts.WeeklyWindowsDistinct | src/all_pages_events.py:114-119 | no window repeats, so no two windows share a file |
| Scripts.RunFull | src/all_pages_events_full.py:136-159 | one loop over 2017-05-15..2023-08-07 into the `{start}_to_{end}` files, with requests carrying the previous token |
| Scripts.RunUaPages | src/ua_pages.py:73-85 | one loop into the single CSV sink, with no JSON written |
| Scripts.RunTraffic | src/all_traffic.py:105-127 | one unpaginated request per day, ascending; each day is requested, written to CSV, dumped to JSON and read back by process_csv_to_excel; the files become `TrafficDays`; a failed request, a row without metrics or an unreadable CSV ends the script on the last day requested |
| Scripts.EachDayItsOwnFiles | src/all_traffic.py:113-127 | in a run still going, every day was answered, its CSV is write_to_csv of its own response and reads back as a table with the numeric columns, and its JSON is that response |
| Scripts.TrafficDaysUntouched | src/all_traffic.py:115 | a day not fetched leaves its CSV as it was |
| Scripts.NoReportsEndsRun | src/all_traffic.py:120-127 | a response with no reports creates that day's CSV and leaves it empty, so process_csv_to_excel's `pd.read_csv` raises and the script ends on that day |
| Scripts.NoReportsKeepsEarlierFile | src/all_traffic.py:120-127 | on a rerun, a response with no reports leaves that day's CSV as an earlier run left it, and the script goes on exactly when that file reads back; otherwise process_csv_to_excel raises |
| DeviceLines.FirstTab | src/all_devices.py:57 | the first tab's index: no tab before it, a tab at it |
| DeviceLines.SplitJoin | src/all_devices.py:57-63 | splitting a tab-joined line at its tabs gives back its fields when no field holds a tab |
| DeviceLines.FirstTabOfJoin | src/all_devices.py:57 | in a joined line the first tab follows the first field |
| DeviceLines.ResponseLinesStuck | src/all_devices.py:50-63 | after an exception, later reports print nothing |
| DeviceLines.PrintReport | src/all_devices.py:51-63 | one report prints `ReportLines`: its header, then its rows |
| DeviceLines.PrintResponse | src/all_devices.py:49-63 | print_response prints `ResponseLines` of the reports, up to the first exception |
| DeviceLines.ReportLinesShape | src/all_devices.py:55-63 | the header line is first; line j + 1 is row j tab-joined; 1 + \|rows\| lines iff no row lacks metrics |
| DeviceLines.ResponseLinesCount | src/all_devices.py:49-63 | the output completes iff every row has metrics, and then has one header per report plus one line per row |
| DeviceLines.HeaderForEveryReport | src/all_devices.py:55-57 | report i's header is printed again after the earlier reports' headers and rows |
| DeviceLines.RunDevices | src/all_devices.py:73-84 | one request per day, ascending, each response printed in turn; a failed request or a row without metrics ends the script on the last day requested |
| DeviceLines.DevicesLinesOk | src/all_devices.py:79-84 | the script prints every day through iff every request is answered and every row has metrics |
| DeviceLines.DevicesLinesPrefix | src/all_devices.py:79-84 | the lines printed for the first days begin the lines printed for all days: output is never taken back |
| Combine.FirstMatchFrom | src/combine.py:19 | the first position at or after i where the pattern matches, none when there is none |
| Combine.DateRangeIsLeftmostMatch | src/combine.py:10-21 | there is no range iff the pattern matches nowhere; otherwise the two groups are taken at the leftmost match |
| Combine.DateRangeGivesDates | src/combine.py:10-21 | both groups are DDDD-DD-DD strings |
| Combine.FullRangeNamesAreCombined | src/all_pages_events_full.py:144-145 | a `{start}_to_{end}.csv` page or events file is a `.csv` whose range is exactly (start, end) |
| Combine.WeeklyNamesAreSkipped | src/all_pages_events.py:153-154 | a weekly `{start}_{end}.csv` file has no range and contributes nothing |
| Combine.CombineListing | src/combine.py:13-34 | the combined records are the tagged frames concatenated, and concatenation raises iff no file matched |
| Combine.IncludedFilesFilter | src/combine.py:16-20 | a file is read iff it is listed, ends in `.csv` and its name matches |
| Combine.FramesTagIncludedFiles | src/combine.py:24-31 | one frame per included file, in listing order, each its records tagged with that file's own range |
| Combine.CombinedRecordCount | src/combine.py:31-34 | the combined table has as many records as the included files together |
| Combine.EveryRecordTagged | src/combine.py:27-28 | every combined record has `start_date` and `end_date`, both dates |

## Left out

- The Google client is not part of this model. That covers
  `initialize_analyticsreporting`, the credentials and `get_report(...).execute()`.
  The Report Source is a parameter instead: a finite list of pages, a
  function from window to its pages, or a function from day to its response
  (none when the request fails).
- CSV quoting and line terminators are left out: a record is its list of
  fields. `json.dump` formatting is left out too: a JSON file is the response
  it was dumped from.
- `strftime` is left out. Paths are a datatype keyed by window or day, which
  stands for the f-string names. Two paths name the same file exactly when
  they come from the same pattern and dates.
- `src/xlsx.py`, `src/combineJSON.py` and `src/test2.py` are left out. They
  wrap pandas, float parsing and Excel/JSON writers, or only print a demo.
- Scripts.ExcelReads models `process_csv_to_excel` of `all_pages_events.py`
  and `all_traffic.py` only as far as whether it raises: on an empty file, or
  on a header record without one of the six numeric columns. The guarded
  version in `all_pages_events_full.py` runs on the main and events files
  after the loop (`src/all_pages_events_full.py:164-165`). It changes no
  modelled file, and `Scripts.RunFull` does not model it, including the
  `EmptyDataError` that `pd.read_csv` raises there on an empty main or events
  file. Other pandas parse failures (a row with more fields than the header,
  a blank header record that `pd.read_csv` skips) are not modelled, and
  neither are the numeric conversion, the sort and the `.xlsx` file it
  writes.
- `os.makedirs` and logging are left out. The listing `os.listdir` returns is
  taken as an input sequence, in whatever order the system gives it.
- `src/ua_pages.py:76` builds its file name from an undefined `date`, so the
  script raises `NameError` before its loop runs. The model runs the loop into
  a single `UaPagesCsv` sink as if the name were defined.
- `Combine.IsDigit` accepts only ASCII `0`-`9`. Python's `\d` also matches
  other Unicode decimal digits.
- `Combine.CombineListing` leaves out reading files. `pd.read_csv` parsing and
  pandas column alignment are not modelled: a file's records are given as maps
  from column name to value, and the combined table is their concatenation,
  without the fresh index or the written output file.
- A JSON key missing from a response is read as an empty list, as the
  scripts' `.get(key, [])` does. The direct subscript
  `report['columnHeader']['dimensions']` at `src/all_pages_events.py:96`
  would raise `KeyError` on a report without a column header. The model gives
  every report a dimension list.
- Reports.Report: every metric header entry is taken to have a name. The
  scripts read the names with `entry.get('name')`
  (`src/all_pages_events.py:82`, `src/all_devices.py:53`). A missing name
  gives `None`: `csv.writer` writes it as an empty field, and the tab join at
  `src/all_devices.py:57` raises `TypeError`. Neither case is modelled.
- Scripts.RunWeekly, Scripts.RunWindows, Scripts.RunTraffic and DeviceLines.RunDevices do not
  return the request batches they send. The per-loop requests are stated by
  `Pagination.FetchPages`, and the per-day request is `TrafficBatch` or
  `DevicesBatch`.
- Printing is modelled as the list of lines printed, not as output on a
  stream.

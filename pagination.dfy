/**
 * The cursor loop of the paginated scripts: request a page, write it to every
 * sink, read `reports[0].nextPageToken`, and stop at the first falsy token.
 * The Report Source is the finite list of pages it would answer with: request
 * j is answered by `pages[j]`, and a request past the end of the list is a
 * source failure.
 */
module Pagination {
  import opened Wrappers
  import opened Reports
  import opened CsvSink
  import opened Requests
  import opened Storage
  import opened DateWindows

  datatype Outcome =
    | Finished            // a page without a continuation token ended the loop
    | SourceExhausted     // the source had no answer for the next request
    | RowWithoutMetrics   // write_to_csv raised IndexError on a row
    | NoReports           // `response.get('reports', [])[0]` raised IndexError

  /** The files one loop writes: a main CSV, maybe an events CSV, maybe a JSON file. */
  datatype Sinks = Sinks(main: Path, events: Option<Path>, json: Option<Path>)

  /** After this page the loop asks for another one. */
  predicate Continues(page: Response)
  {
    |page.reports| > 0 && !IsFalsy(page.reports[0].nextPageToken)
  }

  /** The index of the first page that ends the loop (|pages| when none does). */
  function StopIndex(pages: seq<Response>): (k: nat)
    ensures k <= |pages|
    ensures forall j :: 0 <= j < k ==> Continues(pages[j])
    ensures k < |pages| ==> !Continues(pages[k])
  {
    if pages == [] || !Continues(pages[0]) then 0 else 1 + StopIndex(pages[1..])
  }

  /** Stopping is decided by the first stopping page alone. */
  lemma StopIndexUnique(pages: seq<Response>, k: nat)
    requires k < |pages|
    requires forall j :: 0 <= j < k ==> Continues(pages[j])
    requires !Continues(pages[k])
    ensures StopIndex(pages) == k
  {
  }

  /**
   * The CSV files after the main file took the reports of the first
   * `mainPages` pages and the events file those of the first `eventPages`.
   * A file no page reached is left as it was (not even created).
   */
  function CsvAfter(csv: map<Path, seq<Line>>, sinks: Sinks, pages: seq<Response>, mainPages: nat, eventPages: nat): map<Path, seq<Line>>
    requires eventPages <= mainPages <= |pages|
  {
    var withMain :=
      if mainPages == 0 then csv
      else csv[sinks.main := WriteReports(LinesIn(csv, sinks.main), AllReports(pages[..mainPages])).lines];
    if eventPages == 0 || sinks.events.None? then withMain
    else withMain[sinks.events.value := WriteEvents(LinesIn(csv, sinks.events.value), AllReports(pages[..eventPages])).lines]
  }

  /** The JSON files after the first `n` pages were dumped: the last one wins. */
  function JsonAfter(json: map<Path, Response>, sinks: Sinks, pages: seq<Response>, n: nat): map<Path, Response>
    requires n <= |pages|
  {
    if n == 0 || sinks.json.None? then json else json[sinks.json.value := pages[n - 1]]
  }

  /** The reports of the first k + 1 pages are those of the first k, then page k's. */
  lemma AllReportsStep(pages: seq<Response>, k: nat)
    requires k < |pages|
    ensures AllReports(pages[..k + 1]) == AllReports(pages[..k]) + pages[k].reports
  {
    assert pages[..k + 1][..k] == pages[..k];
  }

  /** After k fully written pages the main file holds the reports of those pages. */
  lemma MainAfterPages(csv0: map<Path, seq<Line>>, sinks: Sinks, pages: seq<Response>, k: nat, e: nat)
    requires e <= k <= |pages|
    requires sinks.events != Some(sinks.main)
    ensures LinesIn(CsvAfter(csv0, sinks, pages, k, e), sinks.main)
      == WriteReports(LinesIn(csv0, sinks.main), AllReports(pages[..k])).lines
  {
    assert pages[..0] == [];
  }

  /** After e pages the events file holds the events of those pages. */
  lemma EventsAfterPages(csv0: map<Path, seq<Line>>, sinks: Sinks, pages: seq<Response>, k: nat, e: nat)
    requires e <= k <= |pages|
    requires sinks.events.Some? && sinks.events != Some(sinks.main)
    ensures LinesIn(CsvAfter(csv0, sinks, pages, k, e), sinks.events.value)
      == WriteEvents(LinesIn(csv0, sinks.events.value), AllReports(pages[..e])).lines
  {
    assert pages[..0] == [];
  }

  /** Writing page k to the main file after k pages gives the main file after k + 1 pages. */
  lemma MainStep(csv0: map<Path, seq<Line>>, sinks: Sinks, pages: seq<Response>, k: nat)
    requires k < |pages|
    requires sinks.events != Some(sinks.main)
    requires WriteReports(LinesIn(csv0, sinks.main), AllReports(pages[..k])).ok
    ensures var c := CsvAfter(csv0, sinks, pages, k, k);
      var w := WriteReports(LinesIn(c, sinks.main), pages[k].reports);
      w == WriteReports(LinesIn(csv0, sinks.main), AllReports(pages[..k + 1])) &&
      c[sinks.main := w.lines] == CsvAfter(csv0, sinks, pages, k + 1, k)
  {
    var main0 := LinesIn(csv0, sinks.main);
    AllReportsStep(pages, k);
    WriteReportsConcat(main0, AllReports(pages[..k]), pages[k].reports);
    MainAfterPages(csv0, sinks, pages, k, k);
    if k > 0 && sinks.events.Some? {
      var main, events := sinks.main, sinks.events.value;
      var m := WriteReports(main0, AllReports(pages[..k])).lines;
      var e := WriteEvents(LinesIn(csv0, events), AllReports(pages[..k])).lines;
      var w := WriteReports(main0, AllReports(pages[..k + 1])).lines;
      assert csv0[main := m][events := e][main := w] == csv0[main := w][events := e];
    }
  }

  /** Writing page k to the events file then gives the events file after k + 1 pages. */
  lemma EventsStep(csv0: map<Path, seq<Line>>, sinks: Sinks, pages: seq<Response>, k: nat)
    requires k < |pages|
    requires sinks.events.Some? && sinks.events != Some(sinks.main)
    requires WriteEvents(LinesIn(csv0, sinks.events.value), AllReports(pages[..k])).ok
    ensures var c := CsvAfter(csv0, sinks, pages, k + 1, k);
      var w := WriteEvents(LinesIn(c, sinks.events.value), pages[k].reports);
      c[sinks.events.value := w.lines] == CsvAfter(csv0, sinks, pages, k + 1, k + 1)
  {
    var events0 := LinesIn(csv0, sinks.events.value);
    AllReportsStep(pages, k);
    WriteEventsConcat(events0, AllReports(pages[..k]), pages[k].reports);
    EventsAfterPages(csv0, sinks, pages, k + 1, k);
  }

  /**
   * Page k to the main file and then to the events file: the main file's write
   * decides success, and a successful one lets the events file's write succeed too.
   */
  lemma MainAndEventsStep(csv0: map<Path, seq<Line>>, sinks: Sinks, pages: seq<Response>, k: nat)
    requires k < |pages|
    requires sinks.events.Some? && sinks.events != Some(sinks.main)
    requires WriteReports(LinesIn(csv0, sinks.main), AllReports(pages[..k])).ok
    ensures var c := CsvAfter(csv0, sinks, pages, k, k);
      var m := WriteReports(LinesIn(c, sinks.main), pages[k].reports);
      var e := WriteEvents(LinesIn(c, sinks.events.value), pages[k].reports);
      m == WriteReports(LinesIn(csv0, sinks.main), AllReports(pages[..k + 1])) &&
      c[sinks.main := m.lines] == CsvAfter(csv0, sinks, pages, k + 1, k) &&
      (m.ok ==> e.ok && c[sinks.main := m.lines][sinks.events.value := e.lines] == CsvAfter(csv0, sinks, pages, k + 1, k + 1))
  {
    var main, events := sinks.main, sinks.events.value;
    var c := CsvAfter(csv0, sinks, pages, k, k);
    MainStep(csv0, sinks, pages, k);
    MainOkThenEventsOk(LinesIn(csv0, main), LinesIn(csv0, events), AllReports(pages[..k]));
    EventsStep(csv0, sinks, pages, k);
    var m := WriteReports(LinesIn(c, main), pages[k].reports);
    assert LinesIn(c[main := m.lines], events) == LinesIn(c, events);
    if m.ok {
      MainOkThenEventsOk(LinesIn(c, main), LinesIn(c, events), pages[k].reports);
    }
  }

  /** Page k's writes to the CSV files, when there is an events file. */
  method WriteCsvWithEvents(fs: FileSystem, sinks: Sinks, pages: seq<Response>, k: nat,
                            ghost csv0: map<Path, seq<Line>>)
    returns (ok: bool)
    requires k < |pages|
    requires sinks.events.Some? && sinks.events != Some(sinks.main)
    requires WriteReports(LinesIn(csv0, sinks.main), AllReports(pages[..k])).ok
    requires fs.csv == CsvAfter(csv0, sinks, pages, k, k)
    modifies fs
    ensures ok == WriteReports(LinesIn(csv0, sinks.main), AllReports(pages[..k + 1])).ok
    ensures fs.csv == CsvAfter(csv0, sinks, pages, k + 1, if ok then k + 1 else k)
    ensures fs.json == old(fs.json)
  {
    MainAndEventsStep(csv0, sinks, pages, k);
    ok := fs.WriteToCsvAndEvents(pages[k], sinks.main, sinks.events.value);
  }

  /** Page k's write to the main CSV file, when there is no events file. */
  method WriteCsvMainOnly(fs: FileSystem, sinks: Sinks, pages: seq<Response>, k: nat,
                          ghost csv0: map<Path, seq<Line>>)
    returns (ok: bool)
    requires k < |pages|
    requires sinks.events.None?
    requires WriteReports(LinesIn(csv0, sinks.main), AllReports(pages[..k])).ok
    requires fs.csv == CsvAfter(csv0, sinks, pages, k, k)
    modifies fs
    ensures ok == WriteReports(LinesIn(csv0, sinks.main), AllReports(pages[..k + 1])).ok
    ensures fs.csv == CsvAfter(csv0, sinks, pages, k + 1, k + 1)
    ensures fs.json == old(fs.json)
  {
    MainStep(csv0, sinks, pages, k);
    ok := fs.WriteToCsv(pages[k], sinks.main);
  }

  /** Page k's writes to the CSV files: the main file, then the events file if there is one. */
  method WriteCsv(fs: FileSystem, sinks: Sinks, pages: seq<Response>, k: nat, ghost csv0: map<Path, seq<Line>>)
    returns (ok: bool)
    requires k < |pages|
    requires sinks.events != Some(sinks.main)
    requires WriteReports(LinesIn(csv0, sinks.main), AllReports(pages[..k])).ok
    requires fs.csv == CsvAfter(csv0, sinks, pages, k, k)
    modifies fs
    ensures ok == WriteReports(LinesIn(csv0, sinks.main), AllReports(pages[..k + 1])).ok
    ensures fs.csv == CsvAfter(csv0, sinks, pages, k + 1, if ok then k + 1 else k)
    ensures fs.json == old(fs.json)
  {
    if sinks.events.Some? {
      ok := WriteCsvWithEvents(fs, sinks, pages, k, csv0);
    } else {
      ok := WriteCsvMainOnly(fs, sinks, pages, k, csv0);
    }
  }

  /**
   * One iteration's writes: page k goes to the main file, then (when that
   * succeeded) to the events file and the JSON file.
   */
  method WritePage(fs: FileSystem, sinks: Sinks, pages: seq<Response>, k: nat,
                   ghost csv0: map<Path, seq<Line>>, ghost json0: map<Path, Response>)
    returns (ok: bool)
    requires k < |pages|
    requires sinks.events != Some(sinks.main)
    requires WriteReports(LinesIn(csv0, sinks.main), AllReports(pages[..k])).ok
    requires fs.csv == CsvAfter(csv0, sinks, pages, k, k)
    requires fs.json == JsonAfter(json0, sinks, pages, k)
    modifies fs
    ensures ok == WriteReports(LinesIn(csv0, sinks.main), AllReports(pages[..k + 1])).ok
    ensures fs.csv == CsvAfter(csv0, sinks, pages, k + 1, if ok then k + 1 else k)
    ensures fs.json == JsonAfter(json0, sinks, pages, if ok then k + 1 else k)
  {
    ok := WriteCsv(fs, sinks, pages, k, csv0);
    JsonAfterStep(json0, sinks, pages, k);
    if ok && sinks.json.Some? {
      fs.WriteToJson(pages[k], sinks.json.value);
    }
  }

  /** Dumping page k over the JSON file as the first k pages left it gives the file after k + 1 pages. */
  lemma JsonAfterStep(json0: map<Path, Response>, sinks: Sinks, pages: seq<Response>, k: nat)
    requires k < |pages|
    ensures sinks.json.Some? ==>
      JsonAfter(json0, sinks, pages, k)[sinks.json.value := pages[k]] == JsonAfter(json0, sinks, pages, k + 1)
    ensures sinks.json.None? ==> JsonAfter(json0, sinks, pages, k) == JsonAfter(json0, sinks, pages, k + 1)
  {
    if sinks.json.Some? && k > 0 {
      var p := sinks.json.value;
      assert json0[p := pages[k - 1]][p := pages[k]] == json0[p := pages[k]];
    }
  }

  /** The token request n carries: none for the first, else the previous page's `reports[0].nextPageToken`. */
  function TokenBefore(pages: seq<Response>, n: nat): Option<string>
    requires n <= |pages|
  {
    if n == 0 || |pages[n - 1].reports| == 0 then None else pages[n - 1].reports[0].nextPageToken
  }

  /** The first n requests of the loop, each built by `build` from the token before it. */
  function RequestsFor(build: Option<string> -> seq<ReportRequest>, pages: seq<Response>, n: nat): (r: seq<seq<ReportRequest>>)
    requires n <= |pages|
    ensures |r| == n
  {
    if n == 0 then [] else RequestsFor(build, pages, n - 1) + [build(TokenBefore(pages, n - 1))]
  }

  /**
   * Request 0 carries no token; request j > 0 carries page j - 1's
   * `reports[0].nextPageToken`, or none when that page had no report.
   */
  lemma {:induction false} RequestsCarryPreviousToken(build: Option<string> -> seq<ReportRequest>, pages: seq<Response>, n: nat)
    requires n <= |pages|
    ensures n > 0 ==> RequestsFor(build, pages, n)[0] == build(None)
    ensures forall j :: 0 < j < n && |pages[j - 1].reports| > 0 ==>
      RequestsFor(build, pages, n)[j] == build(pages[j - 1].reports[0].nextPageToken)
    ensures forall j :: 0 < j < n && |pages[j - 1].reports| == 0 ==>
      RequestsFor(build, pages, n)[j] == build(None)
  {
    if n > 0 {
      RequestsCarryPreviousToken(build, pages, n - 1);
      var r := RequestsFor(build, pages, n);
      assert forall j :: 0 <= j < n - 1 ==> r[j] == RequestsFor(build, pages, n - 1)[j];
    }
  }

  /** In the page-and-events loop both report requests of request j carry the token before it. */
  lemma {:induction false} AllPagesRequestsShareToken(w: Window, pages: seq<Response>, n: nat)
    requires n <= |pages|
    ensures var r := RequestsFor(AllPagesBuild(w), pages, n);
      forall j :: 0 <= j < n ==>
        |r[j]| == 2 && r[j][0].pageToken == TokenBefore(pages, j) && r[j][1].pageToken == TokenBefore(pages, j)
  {
    if n > 0 {
      AllPagesRequestsShareToken(w, pages, n - 1);
      var r := RequestsFor(AllPagesBuild(w), pages, n);
      assert forall j :: 0 <= j < n - 1 ==> r[j] == RequestsFor(AllPagesBuild(w), pages, n - 1)[j];
    }
  }

  /** How the loop ends: the outcome and the number of requests the source answered. */
  datatype LoopEnd = LoopEnd(outcome: Outcome, requests: nat)

  /**
   * The loop from request k on, once k pages were written to the main file
   * `mainFile` held before the loop and each asked for another page.
   */
  function RunFrom(mainFile: seq<Line>, pages: seq<Response>, k: nat): (e: LoopEnd)
    requires k <= |pages|
    ensures k <= e.requests <= |pages|
    ensures e.outcome != SourceExhausted ==> k < e.requests
    decreases |pages| - k
  {
    if k == |pages| then LoopEnd(SourceExhausted, k)
    else if !WriteReports(mainFile, AllReports(pages[..k + 1])).ok then LoopEnd(RowWithoutMetrics, k + 1)
    else if |pages[k].reports| == 0 then LoopEnd(NoReports, k + 1)
    else if IsFalsy(pages[k].reports[0].nextPageToken) then LoopEnd(Finished, k + 1)
    else RunFrom(mainFile, pages, k + 1)
  }

  function RunLoop(mainFile: seq<Line>, pages: seq<Response>): (e: LoopEnd)
    ensures e.requests <= |pages|
    ensures e.outcome != SourceExhausted ==> e.requests > 0
  {
    RunFrom(mainFile, pages, 0)
  }

  /** The outcome of the loop, in terms of the pages and of what the main file's write does. */
  predicate EndsAsSpecified(mainFile: seq<Line>, pages: seq<Response>, e: LoopEnd)
  {
    && e.requests <= |pages|
    && e.requests <= StopIndex(pages) + 1
    && (e.outcome == RowWithoutMetrics <==> !WriteReports(mainFile, AllReports(pages[..e.requests])).ok)
    && (e.outcome == RowWithoutMetrics ==>
          e.requests > 0 && WriteReports(mainFile, AllReports(pages[..e.requests - 1])).ok)
    && (e.outcome == SourceExhausted ==> e.requests == |pages| == StopIndex(pages))
    && (e.outcome == Finished ==>
          e.requests == StopIndex(pages) + 1 && pages[e.requests - 1].reports != [])
    && (e.outcome == NoReports ==>
          e.requests == StopIndex(pages) + 1 && pages[e.requests - 1].reports == [])
  }

  lemma {:induction false} RunFromEnds(mainFile: seq<Line>, pages: seq<Response>, k: nat)
    requires k <= |pages| && k <= StopIndex(pages)
    requires WriteReports(mainFile, AllReports(pages[..k])).ok
    ensures EndsAsSpecified(mainFile, pages, RunFrom(mainFile, pages, k))
    decreases |pages| - k
  {
    if k < |pages| {
      if WriteReports(mainFile, AllReports(pages[..k + 1])).ok {
        if Continues(pages[k]) {
          RunFromEnds(mainFile, pages, k + 1);
        } else {
          StopIndexUnique(pages, k);
        }
      }
    }
  }

  /**
   * The loop stops right after the first page whose first report has no
   * (or an empty) token, so it makes that page's index + 1 requests; it stops
   * earlier only when writing a page raises, and later never.
   */
  lemma RunLoopEnds(mainFile: seq<Line>, pages: seq<Response>)
    ensures EndsAsSpecified(mainFile, pages, RunLoop(mainFile, pages))
  {
    assert pages[..0] == [];
    RunFromEnds(mainFile, pages, 0);
  }

  /**
   * The pages with tokens "a", "b" and none, whose rows all have metrics:
   * the loop finishes after exactly three requests, and all three pages are
   * written, in order.
   */
  lemma ThreePageScenario(csv: map<Path, seq<Line>>, json: map<Path, Response>, sinks: Sinks, a: Report, b: Report, c: Report)
    requires a.nextPageToken == Some("a") && b.nextPageToken == Some("b") && c.nextPageToken == None
    requires AllRowsHaveMetrics([a, b, c])
    requires sinks.events != Some(sinks.main)
    ensures var pages := [Response([a]), Response([b]), Response([c])];
      var mainFile := LinesIn(csv, sinks.main);
      && RunLoop(mainFile, pages) == LoopEnd(Finished, 3)
      && LinesIn(LoopCsv(csv, sinks, pages), sinks.main) == WriteReports(mainFile, [a, b, c]).lines
      && (sinks.json.Some? ==> LoopJson(json, csv, sinks, pages)[sinks.json.value] == Response([c]))
  {
    var pages := [Response([a]), Response([b]), Response([c])];
    var mainFile := LinesIn(csv, sinks.main);
    ThreePagesWrite(mainFile, a, b, c);
    assert RunFrom(mainFile, pages, 2) == LoopEnd(Finished, 3);
    assert RunFrom(mainFile, pages, 1) == LoopEnd(Finished, 3);
    MainAfterPages(csv, sinks, pages, 3, 3);
  }

  /** The reports of the scenario's first one, two and three pages, and their writes succeed. */
  lemma ThreePagesWrite(mainFile: seq<Line>, a: Report, b: Report, c: Report)
    requires AllRowsHaveMetrics([a, b, c])
    ensures var pages := [Response([a]), Response([b]), Response([c])];
      && AllReports(pages[..1]) == [a] && WriteReports(mainFile, [a]).ok
      && AllReports(pages[..2]) == [a, b] && WriteReports(mainFile, [a, b]).ok
      && AllReports(pages[..3]) == [a, b, c] && WriteReports(mainFile, [a, b, c]).ok
  {
    var pages := [Response([a]), Response([b]), Response([c])];
    assert pages[..1][..0] == [];
    assert pages[..2][..1] == pages[..1];
    assert pages[..3][..2] == pages[..2];
    assert [a, b, c][0] == a && [a, b, c][1] == b;
    assert forall j :: 0 <= j < |a.rows| ==> HasMetrics(a.rows[j]);
    assert forall j :: 0 <= j < |b.rows| ==> HasMetrics(b.rows[j]);
    assert AllRowsHaveMetrics([a]);
    assert AllRowsHaveMetrics([a, b]);
    WriteReportsOkIffMetrics(mainFile, [a]);
    WriteReportsOkIffMetrics(mainFile, [a, b]);
    WriteReportsOkIffMetrics(mainFile, [a, b, c]);
  }

  /** The pages whose writes completed: all answered ones, but the last when its write raised. */
  function PagesWritten(e: LoopEnd): nat
  {
    if e.outcome == RowWithoutMetrics && e.requests > 0 then e.requests - 1 else e.requests
  }

  /** The CSV files after the whole loop, started on `csv`. */
  function LoopCsv(csv: map<Path, seq<Line>>, sinks: Sinks, pages: seq<Response>): map<Path, seq<Line>>
  {
    var e := RunLoop(LinesIn(csv, sinks.main), pages);
    CsvAfter(csv, sinks, pages, e.requests, PagesWritten(e))
  }

  /** The JSON files after the whole loop: the last page written wins. */
  function LoopJson(json: map<Path, Response>, csv: map<Path, seq<Line>>, sinks: Sinks, pages: seq<Response>): map<Path, Response>
  {
    var e := RunLoop(LinesIn(csv, sinks.main), pages);
    JsonAfter(json, sinks, pages, PagesWritten(e))
  }

  /** The loop writes its own sinks and no other file. */
  lemma LoopFrame(csv: map<Path, seq<Line>>, json: map<Path, Response>, sinks: Sinks, pages: seq<Response>, p: Path)
    ensures p != sinks.main && Some(p) != sinks.events ==>
      (p in LoopCsv(csv, sinks, pages) <==> p in csv) && LinesIn(LoopCsv(csv, sinks, pages), p) == LinesIn(csv, p)
    ensures Some(p) != sinks.json ==>
      (p in LoopJson(json, csv, sinks, pages) <==> p in json) &&
      (p in json ==> LoopJson(json, csv, sinks, pages)[p] == json[p])
  {
  }

  /**
   * Last page wins: after a loop that wrote at least one page, the JSON file
   * holds exactly the last page written, whatever it held before.
   */
  lemma LoopJsonLastPage(json: map<Path, Response>, csv: map<Path, seq<Line>>, sinks: Sinks, pages: seq<Response>)
    requires sinks.json.Some?
    ensures var n := PagesWritten(RunLoop(LinesIn(csv, sinks.main), pages));
      n <= |pages| &&
      (n > 0 ==> LoopJson(json, csv, sinks, pages)[sinks.json.value] == pages[n - 1]) &&
      (n == 0 ==> LoopJson(json, csv, sinks, pages) == json)
  {
  }

  /**
   * What the loop leaves in its own files depends only on what those files
   * held before: the rest of the directory plays no part.
   */
  lemma LoopLocal(a: map<Path, seq<Line>>, b: map<Path, seq<Line>>, ja: map<Path, Response>, jb: map<Path, Response>,
                  sinks: Sinks, pages: seq<Response>)
    requires LinesIn(a, sinks.main) == LinesIn(b, sinks.main)
    requires sinks.events.Some? ==> LinesIn(a, sinks.events.value) == LinesIn(b, sinks.events.value)
    requires sinks.json.Some? && sinks.json.value in ja ==> sinks.json.value in jb && ja[sinks.json.value] == jb[sinks.json.value]
    requires sinks.json.Some? && sinks.json.value in jb ==> sinks.json.value in ja
    ensures LinesIn(LoopCsv(a, sinks, pages), sinks.main) == LinesIn(LoopCsv(b, sinks, pages), sinks.main)
    ensures sinks.events.Some? ==>
      LinesIn(LoopCsv(a, sinks, pages), sinks.events.value) == LinesIn(LoopCsv(b, sinks, pages), sinks.events.value)
    ensures sinks.json.Some? ==>
      (sinks.json.value in LoopJson(ja, a, sinks, pages) <==> sinks.json.value in LoopJson(jb, b, sinks, pages)) &&
      (sinks.json.value in LoopJson(ja, a, sinks, pages) ==>
        LoopJson(ja, a, sinks, pages)[sinks.json.value] == LoopJson(jb, b, sinks, pages)[sinks.json.value])
  {
  }

  /**
   * One round of the loop after request k was sent: write page k, then decide
   * from its first report's token whether another request follows.
   */
  method FetchStep(fs: FileSystem, build: Option<string> -> seq<ReportRequest>, pages: seq<Response>, sinks: Sinks, k: nat,
                   requests: seq<seq<ReportRequest>>, token: Option<string>,
                   ghost csv0: map<Path, seq<Line>>, ghost json0: map<Path, Response>)
    returns (more: bool, outcome: Outcome, requests': seq<seq<ReportRequest>>, token': Option<string>)
    requires k < |pages|
    requires requests == RequestsFor(build, pages, k) && token == TokenBefore(pages, k)
    requires sinks.events != Some(sinks.main)
    requires WriteReports(LinesIn(csv0, sinks.main), AllReports(pages[..k])).ok
    requires fs.csv == CsvAfter(csv0, sinks, pages, k, k)
    requires fs.json == JsonAfter(json0, sinks, pages, k)
    modifies fs
    ensures requests' == RequestsFor(build, pages, k + 1)
    ensures more ==>
      && token' == TokenBefore(pages, k + 1)
      && Continues(pages[k])
      && RunFrom(LinesIn(csv0, sinks.main), pages, k) == RunFrom(LinesIn(csv0, sinks.main), pages, k + 1)
      && WriteReports(LinesIn(csv0, sinks.main), AllReports(pages[..k + 1])).ok
      && fs.csv == CsvAfter(csv0, sinks, pages, k + 1, k + 1)
      && fs.json == JsonAfter(json0, sinks, pages, k + 1)
    ensures !more ==>
      var written := if outcome == RowWithoutMetrics then k else k + 1;
      && RunFrom(LinesIn(csv0, sinks.main), pages, k) == LoopEnd(outcome, k + 1)
      && fs.csv == CsvAfter(csv0, sinks, pages, k + 1, written)
      && fs.json == JsonAfter(json0, sinks, pages, written)
  {
    requests' := requests + [build(token)];
    token' := token;
    var ok := WritePage(fs, sinks, pages, k, csv0, json0);
    var response := pages[k];
    if !ok {
      return false, RowWithoutMetrics, requests', token';
    }
    if |response.reports| == 0 {
      return false, NoReports, requests', token';
    }
    token' := response.reports[0].nextPageToken;
    if IsFalsy(token') {
      return false, Finished, requests', token';
    }
    more, outcome := true, Finished;
  }

  /**
   * The `while True` loop of main: each page is written to every sink before
   * the next request, whose token (shared by all its report requests) is the
   * page's `reports[0].nextPageToken`.
   */
  method FetchPages(fs: FileSystem, build: Option<string> -> seq<ReportRequest>, pages: seq<Response>, sinks: Sinks)
    returns (outcome: Outcome, requests: seq<seq<ReportRequest>>)
    requires sinks.events != Some(sinks.main)
    modifies fs
    ensures LoopEnd(outcome, |requests|) == RunLoop(LinesIn(old(fs.csv), sinks.main), pages)
    ensures requests == RequestsFor(build, pages, |requests|)
    ensures fs.csv == CsvAfter(old(fs.csv), sinks, pages, |requests|, PagesWritten(LoopEnd(outcome, |requests|)))
    ensures fs.json == JsonAfter(old(fs.json), sinks, pages, PagesWritten(LoopEnd(outcome, |requests|)))
  {
    ghost var csv0 := fs.csv;
    ghost var json0 := fs.json;
    var token: Option<string> := None;
    var k := 0;
    requests := [];
    assert pages[..0] == [];
    while true
      invariant 0 <= k <= |pages|
      invariant RunFrom(LinesIn(csv0, sinks.main), pages, k) == RunLoop(LinesIn(csv0, sinks.main), pages)
      invariant requests == RequestsFor(build, pages, k)
      invariant token == TokenBefore(pages, k)
      invariant WriteReports(LinesIn(csv0, sinks.main), AllReports(pages[..k])).ok
      invariant fs.csv == CsvAfter(csv0, sinks, pages, k, k)
      invariant fs.json == JsonAfter(json0, sinks, pages, k)
      decreases |pages| - k
    {
      if k == |pages| {
        return SourceExhausted, requests;
      }
      var more;
      more, outcome, requests, token := FetchStep(fs, build, pages, sinks, k, requests, token, csv0, json0);
      if !more {
        assert PagesWritten(LoopEnd(outcome, k + 1)) == if outcome == RowWithoutMetrics then k else k + 1;
        return;
      }
      k := k + 1;
    }
  }
}

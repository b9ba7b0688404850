/**
 * The `main` functions of the file-writing scripts: which loops they run,
 * over which dates, into which files, and where an exception stops them.
 * The Report Source is a parameter: for the paginated scripts, the pages it
 * would answer for a window; for the daily script, the response for a day.
 */
module Scripts {
  import opened Wrappers
  import opened Reports
  import opened CsvSink
  import opened DateWindows
  import opened Requests
  import opened Storage
  import opened Pagination

  /**
   * process_csv_to_excel, without a guard on its columns, gets past reading and
   * converting the file: `pd.read_csv` raises EmptyDataError on a file without
   * any record, and `df[column]` raises KeyError when the header record does not
   * name one of `columns`.
   */
  predicate ExcelReads(columns: seq<string>, file: seq<Line>)
  {
    |file| > 0 && forall c :: c in columns ==> c in file[0]
  }

  /** The columns all_pages_events.py converts to numbers; ga:pageviews is also its sort key. */
  const PagesColumns: seq<string> :=
    ["ga:pageviews", "ga:uniquePageviews", "ga:avgTimeOnPage", "ga:entrances", "ga:bounceRate", "ga:exitRate"]

  /** The columns all_traffic.py converts to numbers; ga:sessions is also its sort key. */
  const TrafficColumns: seq<string> :=
    ["ga:users", "ga:newUsers", "ga:sessions", "ga:bounceRate", "ga:pageviewsPerSession", "ga:avgSessionDuration"]

  /** The three files of all_pages_events.py for one week. */
  function WeeklySinks(w: Window): Sinks
  {
    Sinks(PagesCsv(w), Some(PagesEventsCsv(w)), Some(PagesJson(w)))
  }

  /**
   * How one window ended: its loop's outcome, and whether its main CSV file
   * then reads back for the spreadsheet (looked at only when the loop finished).
   */
  datatype WeekEnd = WeekEnd(outcome: Outcome, readable: bool)

  /** The directory after several windows, and how each window ended. */
  datatype RunState = RunState(csv: map<Path, seq<Line>>, json: map<Path, Response>, weeks: seq<WeekEnd>)

  /** The windows `ws` run one after the other, each to its loop's end, from `st`. */
  function WeeksFrom(st: RunState, ws: seq<Window>, source: Window -> seq<Response>): (r: RunState)
    ensures |r.weeks| == |st.weeks| + |ws|
    ensures r.weeks[..|st.weeks|] == st.weeks
  {
    if ws == [] then st
    else
      var s := WeeksFrom(st, ws[..|ws| - 1], source);
      var w := ws[|ws| - 1];
      var sinks := WeeklySinks(w);
      var e := RunLoop(LinesIn(s.csv, sinks.main), source(w));
      var csv := LoopCsv(s.csv, sinks, source(w));
      RunState(csv, LoopJson(s.json, s.csv, sinks, source(w)),
               s.weeks + [WeekEnd(e.outcome, ExcelReads(PagesColumns, LinesIn(csv, sinks.main)))])
  }

  /**
   * main of all_pages_events.py: one pagination loop per week of
   * WeeklyWindows(start, end), then process_csv_to_excel on the week's main
   * CSV file. An exception in a loop or in that read ends the script, so the
   * windows run are a prefix of the weeks and every one but the last finished
   * normally and read back.
   */
  method RunWeekly(fs: FileSystem, start: int, end: int, source: Window -> seq<Response>)
    returns (done: seq<Window>, outcome: Outcome, readable: bool)
    modifies fs
    ensures done <= WeeklyWindows(start, end)
    ensures var r := WeeksFrom(RunState(old(fs.csv), old(fs.json), []), done, source);
      && fs.csv == r.csv && fs.json == r.json
      && (forall i :: 0 <= i < |done| - 1 ==> r.weeks[i] == WeekEnd(Finished, true))
      && (done != [] ==> r.weeks[|done| - 1] == WeekEnd(outcome, readable))
    ensures outcome == Finished && readable ==> done == WeeklyWindows(start, end)
    ensures !(outcome == Finished && readable) ==> done != []
  {
    var windows := WeeklyDateRanges(start, end);
    done, outcome, readable := RunWindows(fs, windows, source);
  }

  /** The loop of RunWeekly over its windows, in order, until a window ends with an exception. */
  method RunWindows(fs: FileSystem, windows: seq<Window>, source: Window -> seq<Response>)
    returns (done: seq<Window>, outcome: Outcome, readable: bool)
    modifies fs
    ensures done <= windows
    ensures var r := WeeksFrom(RunState(old(fs.csv), old(fs.json), []), done, source);
      && fs.csv == r.csv && fs.json == r.json
      && (forall i :: 0 <= i < |done| - 1 ==> r.weeks[i] == WeekEnd(Finished, true))
      && (done != [] ==> r.weeks[|done| - 1] == WeekEnd(outcome, readable))
    ensures outcome == Finished && readable ==> done == windows
    ensures !(outcome == Finished && readable) ==> done != []
  {
    ghost var st0 := RunState(fs.csv, fs.json, []);
    ghost var st := st0;
    done := [];
    outcome := Finished;
    readable := true;
    var i := 0;
    while i < |windows|
      invariant 0 <= i <= |windows|
      invariant done == windows[..i]
      invariant outcome == Finished && readable
      invariant st == WeeksFrom(st0, done, source)
      invariant fs.csv == st.csv && fs.json == st.json
      invariant forall j :: 0 <= j < |done| ==> st.weeks[j] == WeekEnd(Finished, true)
    {
      outcome, readable, st := RunWeek(fs, windows, i, source, st0, st);
      done := windows[..i + 1];
      if outcome != Finished || !readable {
        return;
      }
      i := i + 1;
    }
    assert windows[..i] == windows;
  }

  /**
   * Window i of RunWeekly: its pagination loop, run on the files the earlier
   * windows left, and whether process_csv_to_excel then reads its main file.
   */
  method RunWeek(fs: FileSystem, windows: seq<Window>, i: nat, source: Window -> seq<Response>,
                 ghost st0: RunState, ghost st: RunState)
    returns (outcome: Outcome, readable: bool, ghost st': RunState)
    requires i < |windows|
    requires st == WeeksFrom(st0, windows[..i], source)
    requires fs.csv == st.csv && fs.json == st.json
    modifies fs
    ensures st' == WeeksFrom(st0, windows[..i + 1], source)
    ensures fs.csv == st'.csv && fs.json == st'.json
    ensures st'.weeks == st.weeks + [WeekEnd(outcome, readable)]
  {
    var w := windows[i];
    ghost var done := windows[..i];
    assert windows[..i + 1] == done + [w];
    assert (done + [w])[..i] == done;
    var requests;
    outcome, requests := FetchPages(fs, AllPagesBuild(w), source(w), WeeklySinks(w));
    readable := ExcelReads(PagesColumns, fs.Lines(PagesCsv(w)));
    st' := WeeksFrom(st0, done + [w], source);
  }

  /** A window outside `ws` has its files left as they were. */
  lemma {:induction false} WeeksFromUntouched(st: RunState, ws: seq<Window>, source: Window -> seq<Response>, w: Window)
    requires w !in ws
    ensures var r := WeeksFrom(st, ws, source);
      && LinesIn(r.csv, PagesCsv(w)) == LinesIn(st.csv, PagesCsv(w))
      && LinesIn(r.csv, PagesEventsCsv(w)) == LinesIn(st.csv, PagesEventsCsv(w))
      && (PagesJson(w) in r.json <==> PagesJson(w) in st.json)
      && (PagesJson(w) in st.json ==> r.json[PagesJson(w)] == st.json[PagesJson(w)])
  {
    if ws != [] {
      var init := ws[..|ws| - 1];
      var last := ws[|ws| - 1];
      assert ws == init + [last];
      WeeksFromUntouched(st, init, source, w);
      var s := WeeksFrom(st, init, source);
      LoopFrame(s.csv, s.json, WeeklySinks(last), source(last), PagesCsv(w));
      LoopFrame(s.csv, s.json, WeeklySinks(last), source(last), PagesEventsCsv(w));
      LoopFrame(s.csv, s.json, WeeklySinks(last), source(last), PagesJson(w));
    }
  }

  /**
   * Every window has its own three files: after several windows ran, window
   * ws[i]'s CSV files, JSON file, outcome and read-back are what its own loop
   * makes of the files as they were before the run, whatever the other
   * windows did.
   */
  lemma {:induction false} EachWeekItsOwnFiles(st: RunState, ws: seq<Window>, source: Window -> seq<Response>, i: nat)
    requires i < |ws|
    requires forall a, b :: 0 <= a < b < |ws| ==> ws[a] != ws[b]
    ensures var r := WeeksFrom(st, ws, source);
      var w := ws[i];
      var c := LoopCsv(st.csv, WeeklySinks(w), source(w));
      var j := LoopJson(st.json, st.csv, WeeklySinks(w), source(w));
      && LinesIn(r.csv, PagesCsv(w)) == LinesIn(c, PagesCsv(w))
      && LinesIn(r.csv, PagesEventsCsv(w)) == LinesIn(c, PagesEventsCsv(w))
      && (PagesJson(w) in r.json <==> PagesJson(w) in j)
      && (PagesJson(w) in j ==> r.json[PagesJson(w)] == j[PagesJson(w)])
      && r.weeks[|st.weeks| + i].outcome == RunLoop(LinesIn(st.csv, PagesCsv(w)), source(w)).outcome
      && r.weeks[|st.weeks| + i].readable == ExcelReads(PagesColumns, LinesIn(c, PagesCsv(w)))
  {
    var init := ws[..|ws| - 1];
    var last := ws[|ws| - 1];
    var s := WeeksFrom(st, init, source);
    var sinks := WeeklySinks(last);
    if i == |ws| - 1 {
      assert forall k :: 0 <= k < |init| ==> init[k] == ws[k];
      WeeksFromUntouched(st, init, source, last);
      LoopLocal(s.csv, st.csv, s.json, st.json, sinks, source(last));
    } else {
      EachWeekItsOwnFiles(st, init, source, i);
      var w := ws[i];
      assert init[i] == w;
      assert w != last;
      LoopFrame(s.csv, s.json, sinks, source(last), PagesCsv(w));
      LoopFrame(s.csv, s.json, sinks, source(last), PagesEventsCsv(w));
      LoopFrame(s.csv, s.json, sinks, source(last), PagesJson(w));
    }
  }

  /**
   * A week whose only page holds one events-shaped report without rows, on a
   * main file that did not exist: the loop finishes, but the main file's only
   * record is that report's header, which names no page metric, so
   * process_csv_to_excel raises and the script ends after that week.
   */
  lemma EventsOnlyWeekEndsRun(st: RunState, w: Window, source: Window -> seq<Response>)
    requires PagesCsv(w) !in st.csv
    requires source(w) == [Response([Report(EventDimensions, ["ga:totalEvents"], [], None)])]
    ensures var r := WeeksFrom(st, [w], source);
      && r.weeks == st.weeks + [WeekEnd(Finished, false)]
      && LinesIn(r.csv, PagesCsv(w)) == [EventDimensions + ["ga:totalEvents"]]
  {
    assert [w][..0] == [];
    EventsOnlyLoop(st.csv, w, source(w));
    assert "ga:pageviews" in PagesColumns && "ga:pageviews" !in EventDimensions + ["ga:totalEvents"];
  }

  /** The loop of EventsOnlyWeekEndsRun: one request, and the new main file holds only the header. */
  lemma EventsOnlyLoop(csv: map<Path, seq<Line>>, w: Window, pages: seq<Response>)
    requires PagesCsv(w) !in csv
    requires pages == [Response([Report(EventDimensions, ["ga:totalEvents"], [], None)])]
    ensures RunLoop([], pages) == LoopEnd(Finished, 1)
    ensures LinesIn(LoopCsv(csv, WeeklySinks(w), pages), PagesCsv(w)) == [EventDimensions + ["ga:totalEvents"]]
  {
    var report := pages[0].reports[0];
    assert pages[..1] == pages;
    assert AllReports(pages) == [report] by {
      assert pages[..0] == [];
    }
    HeaderOnceOnEmptyFile([report]);
    assert RunLoop([], pages) == LoopEnd(Finished, 1);
    MainAfterPages(csv, WeeklySinks(w), pages, 1, 1);
  }

  /** The weeks of a run are pairwise different windows, so each gets files of its own. */
  lemma WeeklyWindowsDistinct(start: int, end: int)
    ensures var ws := WeeklyWindows(start, end);
      forall a, b :: 0 <= a < b < |ws| ==> ws[a] != ws[b]
  {
  }

  /** The one window of all_pages_events_full.py: 2017-05-15 to 2023-08-07, both sent as given. */
  const FullWindow: Window := Window(FirstDay, LastDay)

  /** Its three files, named `{start}_to_{end}`. */
  function FullSinks(): Sinks
  {
    Sinks(FullCsv(FullWindow), Some(FullEventsCsv(FullWindow)), Some(FullJson(FullWindow)))
  }

  /** main of all_pages_events_full.py: one pagination loop over the whole range. */
  method RunFull(fs: FileSystem, pages: seq<Response>) returns (outcome: Outcome, requests: seq<seq<ReportRequest>>)
    modifies fs
    ensures LoopEnd(outcome, |requests|) == RunLoop(LinesIn(old(fs.csv), FullCsv(FullWindow)), pages)
    ensures requests == RequestsFor(AllPagesBuild(FullWindow), pages, |requests|)
    ensures fs.csv == LoopCsv(old(fs.csv), FullSinks(), pages)
    ensures fs.json == LoopJson(old(fs.json), old(fs.csv), FullSinks(), pages)
  {
    outcome, requests := FetchPages(fs, AllPagesBuild(FullWindow), pages, FullSinks());
  }

  /** main of ua_pages.py: one pagination loop into one CSV file, with neither events file nor JSON. */
  method RunUaPages(fs: FileSystem, pages: seq<Response>) returns (outcome: Outcome, requests: seq<seq<ReportRequest>>)
    modifies fs
    ensures LoopEnd(outcome, |requests|) == RunLoop(LinesIn(old(fs.csv), UaPagesCsv), pages)
    ensures requests == RequestsFor(UaPagesBatch, pages, |requests|)
    ensures fs.csv == LoopCsv(old(fs.csv), Sinks(UaPagesCsv, None, None), pages)
    ensures fs.json == old(fs.json)
  {
    outcome, requests := FetchPages(fs, UaPagesBatch, pages, Sinks(UaPagesCsv, None, None));
  }

  /** How all_traffic.py stands after some days: still running, or ended by an exception. */
  datatype DailyStatus =
    | Running        // every day so far went through
    | ReportFailed   // get_report(...).execute() raised
    | CsvRaised      // write_to_csv raised IndexError on a row without metrics
    | ExcelRaised    // process_csv_to_excel could not read the day's CSV file

  /** The directory during all_traffic.py, and how the script stands. */
  datatype DailyState = DailyState(csv: map<Path, seq<Line>>, json: map<Path, Response>, status: DailyStatus)

  /**
   * The days `days` run one after the other from `st`. Each day's response is
   * requested, appended to that day's CSV file, dumped to its JSON file, and
   * then the CSV file is read back by process_csv_to_excel. The first step that
   * raises ends the script, and the later steps of that day do not happen.
   */
  function TrafficDays(st: DailyState, days: seq<int>, source: int -> Option<Response>): DailyState
  {
    if days == [] then st
    else
      var s := TrafficDays(st, days[..|days| - 1], source);
      var d := days[|days| - 1];
      if s.status != Running then s
      else if source(d).None? then DailyState(s.csv, s.json, ReportFailed)
      else
        var response := source(d).value;
        var w := WriteReports(LinesIn(s.csv, TrafficCsv(d)), response.reports);
        var csv := s.csv[TrafficCsv(d) := w.lines];
        if !w.ok then DailyState(csv, s.json, CsvRaised)
        else DailyState(csv, s.json[TrafficJson(d) := response], if ExcelReads(TrafficColumns, w.lines) then Running else ExcelRaised)
  }

  /**
   * main of all_traffic.py: one request TrafficBatch(day) per day from start
   * through end, which carries no page token, so only the first page of each
   * day is ever stored. The days requested are a prefix of the range; the run
   * covers the whole range unless an exception ended it, on the last day requested.
   */
  method RunTraffic(fs: FileSystem, start: int, end: int, source: int -> Option<Response>)
    returns (fetched: seq<int>, status: DailyStatus)
    modifies fs
    ensures fetched <= DailyDays(start, end)
    ensures TrafficDays(DailyState(old(fs.csv), old(fs.json), Running), fetched, source) == DailyState(fs.csv, fs.json, status)
    ensures status == Running ==> fetched == DailyDays(start, end)
    ensures status != Running ==>
      fetched != [] && TrafficDays(DailyState(old(fs.csv), old(fs.json), Running), fetched[..|fetched| - 1], source).status == Running
  {
    var days := DailyDates(start, end);
    ghost var st0 := DailyState(fs.csv, fs.json, Running);
    fetched := [];
    status := Running;
    var i := 0;
    while i < |days|
      invariant 0 <= i <= |days|
      invariant fetched == days[..i]
      invariant status == Running
      invariant TrafficDays(st0, fetched, source) == DailyState(fs.csv, fs.json, Running)
    {
      var d := days[i];
      assert (fetched + [d])[..|fetched|] == fetched;
      fetched := fetched + [d];
      assert fetched == days[..i + 1];
      var answer := source(d);
      if answer.None? {
        status := ReportFailed;
        return;
      }
      var ok := fs.WriteToCsv(answer.value, TrafficCsv(d));
      if !ok {
        status := CsvRaised;
        return;
      }
      fs.WriteToJson(answer.value, TrafficJson(d));
      if !ExcelReads(TrafficColumns, fs.Lines(TrafficCsv(d))) {
        status := ExcelRaised;
        return;
      }
      i := i + 1;
    }
  }

  /**
   * Each day has its own CSV and JSON file: after a run over distinct days
   * that raised nothing, day d's CSV file exists and holds what its one
   * response appended to it, and its JSON file holds that response.
   */
  lemma {:induction false} EachDayItsOwnFiles(st: DailyState, days: seq<int>, source: int -> Option<Response>, i: nat)
    requires i < |days|
    requires forall a, b :: 0 <= a < b < |days| ==> days[a] != days[b]
    requires TrafficDays(st, days, source).status == Running
    ensures var r := TrafficDays(st, days, source);
      var d := days[i];
      && source(d).Some?
      && TrafficCsv(d) in r.csv
      && r.csv[TrafficCsv(d)] == WriteReports(LinesIn(st.csv, TrafficCsv(d)), source(d).value.reports).lines
      && ExcelReads(TrafficColumns, r.csv[TrafficCsv(d)])
      && TrafficJson(d) in r.json && r.json[TrafficJson(d)] == source(d).value
  {
    var init := days[..|days| - 1];
    var last := days[|days| - 1];
    var s := TrafficDays(st, init, source);
    if i == |days| - 1 {
      assert forall k :: 0 <= k < |init| ==> init[k] == days[k];
      TrafficDaysUntouched(st, init, source, last);
    } else {
      assert init[i] == days[i];
      EachDayItsOwnFiles(st, init, source, i);
    }
  }

  /** A day outside `days` has its files left as they were. */
  lemma {:induction false} TrafficDaysUntouched(st: DailyState, days: seq<int>, source: int -> Option<Response>, d: int)
    requires d !in days
    ensures var r := TrafficDays(st, days, source);
      LinesIn(r.csv, TrafficCsv(d)) == LinesIn(st.csv, TrafficCsv(d))
  {
    if days != [] {
      assert days == days[..|days| - 1] + [days[|days| - 1]];
      TrafficDaysUntouched(st, days[..|days| - 1], source, d);
    }
  }

  /**
   * A day whose response has no report leaves its new CSV file empty: no
   * header, no rows. Reading it back raises, so that day ends the script.
   */
  lemma NoReportsEndsRun(st: DailyState, days: seq<int>, source: int -> Option<Response>)
    requires days != []
    requires days[|days| - 1] !in days[..|days| - 1]
    requires TrafficDays(st, days[..|days| - 1], source).status == Running
    requires TrafficCsv(days[|days| - 1]) !in st.csv && source(days[|days| - 1]) == Some(Response([]))
    ensures var r := TrafficDays(st, days, source);
      && TrafficCsv(days[|days| - 1]) in r.csv && r.csv[TrafficCsv(days[|days| - 1])] == []
      && r.status == ExcelRaised
  {
    TrafficDaysUntouched(st, days[..|days| - 1], source, days[|days| - 1]);
  }

  /**
   * A day with no report on a rerun: the append adds nothing, so the day's CSV
   * is the one an earlier run left, and the script goes on exactly when that
   * file reads back for the spreadsheet.
   */
  lemma NoReportsKeepsEarlierFile(st: DailyState, days: seq<int>, source: int -> Option<Response>)
    requires days != []
    requires days[|days| - 1] !in days[..|days| - 1]
    requires TrafficDays(st, days[..|days| - 1], source).status == Running
    requires source(days[|days| - 1]) == Some(Response([]))
    ensures var r := TrafficDays(st, days, source);
      var d := days[|days| - 1];
      && LinesIn(r.csv, TrafficCsv(d)) == LinesIn(st.csv, TrafficCsv(d))
      && (r.status == Running <==> ExcelReads(TrafficColumns, LinesIn(st.csv, TrafficCsv(d))))
      && (r.status != Running ==> r.status == ExcelRaised)
  {
    TrafficDaysUntouched(st, days[..|days| - 1], source, days[|days| - 1]);
  }
}

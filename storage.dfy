/**
 * The output directory as the scripts change it: CSV files opened in append
 * mode, one record per `writerow`, and JSON files overwritten whole by
 * `json.dump`. Files are keyed by the path the scripts build from the date
 * window; the date-to-text formatting is abstracted away, so two paths are
 * the same file exactly when they are built from the same pattern and dates.
 */
module Storage {
  import opened Wrappers
  import opened Reports
  import opened CsvSink
  import opened DateWindows

  datatype Path =
    | PagesCsv(window: Window)         // UniversalAnalytics_AllPages_{start}_{end}.csv
    | PagesEventsCsv(window: Window)   // UniversalAnalytics_AllPages_Events_{start}_{end}.csv
    | PagesJson(window: Window)        // json/UniversalAnalytics_AllPages_{start}_{end}.json
    | FullCsv(window: Window)          // UniversalAnalytics_AllPages_{start}_to_{end}.csv
    | FullEventsCsv(window: Window)    // UniversalAnalytics_AllPages_Events_{start}_to_{end}.csv
    | FullJson(window: Window)         // json/UniversalAnalytics_AllPages_{start}_to_{end}.json
    | TrafficCsv(day: int)             // UniversalAnalytics_AllTraffic_{date}.csv
    | TrafficJson(day: int)            // json/UniversalAnalytics_AllTraffic_{date}.json
    | UaPagesCsv                       // UniversalAnalytics_AllPages_{date}.csv

  /** The records of a CSV file; a missing file reads as empty (`file.tell() == 0`). */
  function LinesIn(csv: map<Path, seq<Line>>, p: Path): seq<Line>
  {
    if p in csv then csv[p] else []
  }

  /** Once a write has raised, writing more reports changes nothing. */
  lemma WriteReportsStuck(file: seq<Line>, reports: seq<Report>, i: nat)
    requires i <= |reports|
    requires !WriteReports(file, reports[..i]).ok
    ensures WriteReports(file, reports) == WriteReports(file, reports[..i])
  {
    WriteReportsConcat(file, reports[..i], reports[i..]);
    assert reports[..i] + reports[i..] == reports;
  }

  lemma WriteEventsStuck(file: seq<Line>, reports: seq<Report>, i: nat)
    requires i <= |reports|
    requires !WriteEvents(file, reports[..i]).ok
    ensures WriteEvents(file, reports) == WriteEvents(file, reports[..i])
  {
    WriteEventsConcat(file, reports[..i], reports[i..]);
    assert reports[..i] + reports[i..] == reports;
  }

  class FileSystem {
    /** Every CSV file, as its records; a path that is absent is a file that does not exist. */
    var csv: map<Path, seq<Line>>
    /** Every JSON file, as the response it was last dumped from. */
    var json: map<Path, Response>

    /** The directory as an earlier run may have left it. */
    constructor (csvFiles: map<Path, seq<Line>>, jsonFiles: map<Path, Response>)
      ensures csv == csvFiles && json == jsonFiles
    {
      csv := csvFiles;
      json := jsonFiles;
    }

    /** The records of the CSV file `p` in this directory. */
    function Lines(p: Path): seq<Line>
      reads this
    {
      LinesIn(csv, p)
    }

    /** `open(p, mode='a')`: creates the file if it is missing, keeps its records otherwise. */
    method Open(p: Path)
      modifies this
      ensures csv == old(csv)[p := old(Lines(p))]
      ensures json == old(json)
    {
      csv := csv[p := Lines(p)];
    }

    /** `writer.writerow(line)` on `p` opened with mode 'a'. */
    method AppendLine(p: Path, line: Line)
      modifies this
      ensures csv == old(csv)[p := old(Lines(p)) + [line]]
      ensures json == old(json)
    {
      csv := csv[p := Lines(p) + [line]];
    }

    /** write_to_csv's row loop: one record per row until a row has no metric set. */
    method AppendRows(p: Path, rows: seq<Row>) returns (ok: bool)
      modifies this
      ensures csv == old(csv)[p := old(Lines(p)) + RowsWritten(rows).lines]
      ensures ok == RowsWritten(rows).ok
      ensures json == old(json)
    {
      ghost var base := Lines(p);
      Open(p);
      assert rows[..0] == [];
      assert base + RowsWritten(rows[..0]).lines == base;
      var i := 0;
      while i < |rows|
        invariant 0 <= i <= |rows|
        invariant RowsWritten(rows[..i]).ok
        invariant p in csv && csv[p] == base + RowsWritten(rows[..i]).lines
        invariant csv == old(csv)[p := csv[p]]
        invariant json == old(json)
      {
        var row := rows[i];
        RowsWrittenStep(rows, i);
        if |row.metrics| == 0 {
          RowsWrittenStuck(rows, i + 1);
          return false;
        }
        AppendLine(p, DataLine(row));
        assert csv[p] == base + RowsWritten(rows[..i + 1]).lines;
        i := i + 1;
      }
      assert rows[..i] == rows;
      ok := true;
    }

    /**
     * The body of write_to_csv's report loop: the header when the file is still
     * empty, then the report's rows.
     */
    method AppendReport(p: Path, report: Report) returns (ok: bool)
      modifies this
      ensures csv == old(csv)[p := WriteReport(old(Lines(p)), report).lines]
      ensures ok == WriteReport(old(Lines(p)), report).ok
      ensures json == old(json)
    {
      ghost var file := Lines(p);
      if Lines(p) == [] {
        AppendLine(p, HeaderLine(report));
      }
      ghost var base := Lines(p);
      assert base == file + (if file == [] then [HeaderLine(report)] else []);
      ok := AppendRows(p, report.rows);
    }

    /** write_to_csv of all_traffic.py and ua_pages.py: every report of the response, in order. */
    method WriteToCsv(response: Response, p: Path) returns (ok: bool)
      modifies this
      ensures csv == old(csv)[p := WriteReports(old(Lines(p)), response.reports).lines]
      ensures ok == WriteReports(old(Lines(p)), response.reports).ok
      ensures json == old(json)
    {
      ghost var file := Lines(p);
      Open(p);
      var reports := response.reports;
      assert reports[..0] == [];
      var i := 0;
      while i < |reports|
        invariant 0 <= i <= |reports|
        invariant WriteReports(file, reports[..i]).ok
        invariant p in csv && csv[p] == WriteReports(file, reports[..i]).lines
        invariant csv == old(csv)[p := csv[p]]
        invariant json == old(json)
      {
        WriteReportsStep(file, reports, i);
        ok := AppendReport(p, reports[i]);
        if !ok {
          WriteReportsStuck(file, reports, i + 1);
          return;
        }
        i := i + 1;
      }
      assert reports[..i] == reports;
      ok := true;
    }

    /** The second loop of write_to_csv in the all_pages_events scripts: the event-shaped reports only. */
    method WriteEventsTo(response: Response, events: Path) returns (ok: bool)
      modifies this
      ensures csv == old(csv)[events := WriteEvents(old(Lines(events)), response.reports).lines]
      ensures ok == WriteEvents(old(Lines(events)), response.reports).ok
      ensures json == old(json)
    {
      ghost var file := Lines(events);
      Open(events);
      var reports := response.reports;
      assert reports[..0] == [];
      var i := 0;
      while i < |reports|
        invariant 0 <= i <= |reports|
        invariant WriteEvents(file, reports[..i]).ok
        invariant events in csv && csv[events] == WriteEvents(file, reports[..i]).lines
        invariant csv == old(csv)[events := csv[events]]
        invariant json == old(json)
      {
        WriteEventsStep(file, reports, i);
        if reports[i].dimensionHeaders == EventDimensions {
          ok := AppendReport(events, reports[i]);
          if !ok {
            WriteEventsStuck(file, reports, i + 1);
            return;
          }
        }
        i := i + 1;
      }
      assert reports[..i] == reports;
      ok := true;
    }

    /**
     * write_to_csv of the two all_pages_events scripts: every report to the main
     * file, then the event-shaped reports to the events file. An exception in the
     * first loop leaves the events file untouched.
     */
    method WriteToCsvAndEvents(response: Response, main: Path, events: Path) returns (ok: bool)
      requires main != events
      modifies this
      ensures var m := WriteReports(old(Lines(main)), response.reports);
              var e := WriteEvents(old(Lines(events)), response.reports);
              ok == (m.ok && e.ok) &&
              csv == if m.ok then old(csv)[main := m.lines][events := e.lines] else old(csv)[main := m.lines]
      ensures json == old(json)
    {
      ok := WriteToCsv(response, main);
      if !ok {
        return;
      }
      ok := WriteEventsTo(response, events);
    }

    /** write_to_json: the file is replaced by this response. */
    method WriteToJson(response: Response, p: Path)
      modifies this
      ensures json == old(json)[p := response]
      ensures csv == old(csv)
    {
      json := json[p := response];
    }
  }
}

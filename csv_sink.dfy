/**
 * What `write_to_csv` leaves in an append-mode CSV file, as functions on the
 * file's records. A file is its list of records; `file.tell() == 0` is "the
 * list is empty". The functions recurse on the last element so that a loop
 * over a prefix can be checked against them step by step.
 */
module CsvSink {
  import opened Reports

  /**
   * The records a write leaves in the file, and whether it ran to the end:
   * `ok` is false when `row.get('metrics', [])[0]` raised IndexError, and then
   * `lines` holds what was written before the exception.
   */
  datatype Written = Written(lines: seq<Line>, ok: bool)

  /** The data records for `rows`, in order, up to the first row without a metric set. */
  function RowsWritten(rows: seq<Row>): Written
  {
    if rows == [] then Written([], true)
    else
      var w := RowsWritten(rows[..|rows| - 1]);
      var last := rows[|rows| - 1];
      if !w.ok then w
      else if HasMetrics(last) then Written(w.lines + [DataLine(last)], true)
      else Written(w.lines, false)
  }

  /** One report appended to `file`: its header first if the file is empty, then its rows. */
  function WriteReport(file: seq<Line>, report: Report): Written
  {
    var header := if file == [] then [HeaderLine(report)] else [];
    var w := RowsWritten(report.rows);
    Written(file + header + w.lines, w.ok)
  }

  /** The reports of one response appended to `file` in order; an exception ends the write. */
  function WriteReports(file: seq<Line>, reports: seq<Report>): Written
  {
    if reports == [] then Written(file, true)
    else
      var w := WriteReports(file, reports[..|reports| - 1]);
      if !w.ok then w else WriteReport(w.lines, reports[|reports| - 1])
  }

  /** The dimension list a report must have, exactly and in this order, to reach the events file. */
  const EventDimensions: seq<string> := ["ga:pagePath", "ga:eventCategory", "ga:eventAction", "ga:eventLabel"]

  predicate IsEventReport(report: Report)
  {
    report.dimensionHeaders == EventDimensions
  }

  /** The second loop of write_to_csv: only event-shaped reports are written to the events file. */
  function WriteEvents(file: seq<Line>, reports: seq<Report>): Written
  {
    if reports == [] then Written(file, true)
    else
      var w := WriteEvents(file, reports[..|reports| - 1]);
      var last := reports[|reports| - 1];
      if !w.ok || !IsEventReport(last) then w else WriteReport(w.lines, last)
  }

  /** The event-shaped reports among `reports`, in their order. */
  function EventReports(reports: seq<Report>): seq<Report>
  {
    if reports == [] then []
    else
      var last := reports[|reports| - 1];
      EventReports(reports[..|reports| - 1]) + (if IsEventReport(last) then [last] else [])
  }

  /** The data records of several reports without any header, up to the first row without metrics. */
  function DataOf(reports: seq<Report>): Written
  {
    if reports == [] then Written([], true)
    else
      var w := DataOf(reports[..|reports| - 1]);
      if !w.ok then w
      else
        var r := RowsWritten(reports[|reports| - 1].rows);
        Written(w.lines + r.lines, r.ok)
  }

  /** Every row of every report has a metric set. */
  predicate AllRowsHaveMetrics(reports: seq<Report>)
  {
    forall i, j :: 0 <= i < |reports| && 0 <= j < |reports[i].rows| ==> HasMetrics(reports[i].rows[j])
  }

  /** Total number of rows of several reports. */
  function RowCount(reports: seq<Report>): nat
  {
    if reports == [] then 0 else RowCount(reports[..|reports| - 1]) + |reports[|reports| - 1].rows|
  }

  /**
   * Row k becomes record k, as dimensions followed by the first metric set's
   * values; writing stops exactly at the first row without metrics, and
   * succeeds exactly when there is none.
   */
  lemma {:induction false} RowsWrittenStopsAtMissingMetrics(rows: seq<Row>)
    ensures |RowsWritten(rows).lines| <= |rows|
    ensures forall k :: 0 <= k < |RowsWritten(rows).lines| ==>
      HasMetrics(rows[k]) && RowsWritten(rows).lines[k] == DataLine(rows[k])
    ensures RowsWritten(rows).ok <==> forall k :: 0 <= k < |rows| ==> HasMetrics(rows[k])
    ensures RowsWritten(rows).ok ==> |RowsWritten(rows).lines| == |rows|
    ensures !RowsWritten(rows).ok ==> !HasMetrics(rows[|RowsWritten(rows).lines|])
  {
    if rows != [] {
      var init := rows[..|rows| - 1];
      RowsWrittenStopsAtMissingMetrics(init);
      assert forall k :: 0 <= k < |init| ==> init[k] == rows[k];
    }
  }

  /** Appending never changes what the file already held. */
  lemma {:induction false} WriteReportsAppendOnly(file: seq<Line>, reports: seq<Report>)
    ensures file <= WriteReports(file, reports).lines
  {
    if reports != [] {
      WriteReportsAppendOnly(file, reports[..|reports| - 1]);
    }
  }

  /** On a file that already has content no header is written: only data records are appended. */
  lemma {:induction false} NoHeaderOnNonEmptyFile(file: seq<Line>, reports: seq<Report>)
    requires file != []
    ensures WriteReports(file, reports) == Written(file + DataOf(reports).lines, DataOf(reports).ok)
  {
    if reports != [] {
      var init := reports[..|reports| - 1];
      NoHeaderOnNonEmptyFile(file, init);
      var d := DataOf(init);
      if d.ok {
        var r := RowsWritten(reports[|reports| - 1].rows);
        assert file + d.lines + [] + r.lines == file + (d.lines + r.lines);
      }
    }
  }

  /**
   * On an empty file the first report's header is written once, as the first
   * record; every later report of the write (the second report of a two-report
   * response included) adds only data records under it.
   */
  lemma {:induction false} HeaderOnceOnEmptyFile(reports: seq<Report>)
    requires reports != []
    ensures WriteReports([], reports) ==
      Written([HeaderLine(reports[0])] + DataOf(reports).lines, DataOf(reports).ok)
  {
    var init := reports[..|reports| - 1];
    var last := reports[|reports| - 1];
    if init == [] {
      assert reports == [last];
      assert DataOf(reports).lines == [] + RowsWritten(last.rows).lines;
    } else {
      HeaderOnceOnEmptyFile(init);
      assert init[0] == reports[0];
      var d := DataOf(init);
      if d.ok {
        var r := RowsWritten(last.rows);
        assert [HeaderLine(reports[0])] + d.lines + [] + r.lines
          == [HeaderLine(reports[0])] + (d.lines + r.lines);
      }
    }
  }

  /** Once a row without metrics stopped the write, later rows change nothing. */
  lemma {:induction false} RowsWrittenStuck(rows: seq<Row>, i: nat)
    requires i <= |rows|
    requires !RowsWritten(rows[..i]).ok
    ensures RowsWritten(rows) == RowsWritten(rows[..i])
    decreases |rows| - i
  {
    if i < |rows| {
      assert rows[..i + 1][..i] == rows[..i];
      RowsWrittenStuck(rows, i + 1);
    } else {
      assert rows[..i] == rows;
    }
  }

  /** One more row on top of a prefix of the report's rows. */
  lemma RowsWrittenStep(rows: seq<Row>, i: nat)
    requires i < |rows|
    ensures RowsWritten(rows[..i + 1]) ==
      (var w := RowsWritten(rows[..i]);
       if !w.ok then w else if HasMetrics(rows[i]) then Written(w.lines + [DataLine(rows[i])], true) else Written(w.lines, false))
  {
    assert rows[..i + 1][..i] == rows[..i];
  }

  /** One more report on top of a prefix of the response. */
  lemma WriteReportsStep(file: seq<Line>, reports: seq<Report>, i: nat)
    requires i < |reports|
    ensures WriteReports(file, reports[..i + 1]) ==
      (var w := WriteReports(file, reports[..i]); if w.ok then WriteReport(w.lines, reports[i]) else w)
  {
    assert reports[..i + 1][..i] == reports[..i];
  }

  /** The same, for the events file. */
  lemma WriteEventsStep(file: seq<Line>, reports: seq<Report>, i: nat)
    requires i < |reports|
    ensures WriteEvents(file, reports[..i + 1]) ==
      (var w := WriteEvents(file, reports[..i]); if w.ok && IsEventReport(reports[i]) then WriteReport(w.lines, reports[i]) else w)
  {
    assert reports[..i + 1][..i] == reports[..i];
  }

  /** A write runs to the end exactly when every row of every report has a metric set. */
  lemma {:induction false} DataOfOkIffMetrics(reports: seq<Report>)
    ensures DataOf(reports).ok <==> AllRowsHaveMetrics(reports)
    ensures DataOf(reports).ok ==> |DataOf(reports).lines| == RowCount(reports)
  {
    if reports != [] {
      var init := reports[..|reports| - 1];
      var last := reports[|reports| - 1];
      DataOfOkIffMetrics(init);
      RowsWrittenStopsAtMissingMetrics(last.rows);
      assert forall i :: 0 <= i < |init| ==> init[i] == reports[i];
      if !DataOf(init).ok {
        assert !AllRowsHaveMetrics(init);
        var i, j :| 0 <= i < |init| && 0 <= j < |init[i].rows| && !HasMetrics(init[i].rows[j]);
        assert !HasMetrics(reports[i].rows[j]);
      }
    }
  }

  /** Whether the file was empty or not, a write succeeds exactly when no row lacks metrics. */
  lemma WriteReportsOkIffMetrics(file: seq<Line>, reports: seq<Report>)
    ensures WriteReports(file, reports).ok <==> AllRowsHaveMetrics(reports)
  {
    DataOfOkIffMetrics(reports);
    if file != [] {
      NoHeaderOnNonEmptyFile(file, reports);
    } else if reports != [] {
      HeaderOnceOnEmptyFile(reports);
    }
  }

  /** Writing two lists of reports one after the other is writing their concatenation. */
  lemma {:induction false} WriteReportsConcat(file: seq<Line>, a: seq<Report>, b: seq<Report>)
    ensures WriteReports(file, a + b) ==
      (var w := WriteReports(file, a); if w.ok then WriteReports(w.lines, b) else w)
  {
    if b == [] {
      assert a + b == a;
    } else {
      var init := b[..|b| - 1];
      WriteReportsConcat(file, a, init);
      assert (a + b)[..|a + b| - 1] == a + init;
      assert (a + b)[|a + b| - 1] == b[|b| - 1];
    }
  }

  /** The same, for the events file. */
  lemma {:induction false} WriteEventsConcat(file: seq<Line>, a: seq<Report>, b: seq<Report>)
    ensures WriteEvents(file, a + b) ==
      (var w := WriteEvents(file, a); if w.ok then WriteEvents(w.lines, b) else w)
  {
    if b == [] {
      assert a + b == a;
    } else {
      var init := b[..|b| - 1];
      WriteEventsConcat(file, a, init);
      assert (a + b)[..|a + b| - 1] == a + init;
      assert (a + b)[|a + b| - 1] == b[|b| - 1];
    }
  }

  /** The event-shaped reports are exactly the reports with the four event dimensions. */
  lemma {:induction false} EventReportsFilter(reports: seq<Report>)
    ensures forall r :: r in EventReports(reports) <==> r in reports && IsEventReport(r)
    ensures |EventReports(reports)| <= |reports|
  {
    if reports != [] {
      var init := reports[..|reports| - 1];
      EventReportsFilter(init);
      assert reports == init + [reports[|reports| - 1]];
    }
  }

  /**
   * Routing: the events file receives exactly what the main writer would write
   * for the event-shaped reports alone; any other report leaves it unchanged.
   */
  lemma {:induction false} EventsFileTakesOnlyEventReports(file: seq<Line>, reports: seq<Report>)
    ensures WriteEvents(file, reports) == WriteReports(file, EventReports(reports))
  {
    if reports != [] {
      var init := reports[..|reports| - 1];
      var last := reports[|reports| - 1];
      EventsFileTakesOnlyEventReports(file, init);
      if IsEventReport(last) {
        var e := EventReports(init) + [last];
        assert e[..|e| - 1] == EventReports(init);
      } else {
        assert WriteEvents(file, reports) == WriteEvents(file, init);
        assert EventReports(reports) == EventReports(init) + [];
        assert EventReports(init) + [] == EventReports(init);
      }
    }
  }

  /** When the main file's write succeeds, the events file's write of the same reports does too. */
  lemma MainOkThenEventsOk(file: seq<Line>, eventsFile: seq<Line>, reports: seq<Report>)
    requires WriteReports(file, reports).ok
    ensures WriteEvents(eventsFile, reports).ok
  {
    WriteReportsOkIffMetrics(file, reports);
    EventsFileTakesOnlyEventReports(eventsFile, reports);
    var e := EventReports(reports);
    EventReportsFilter(reports);
    forall i, j | 0 <= i < |e| && 0 <= j < |e[i].rows|
      ensures HasMetrics(e[i].rows[j])
    {
      assert e[i] in reports;
      var k :| 0 <= k < |reports| && reports[k] == e[i];
    }
    WriteReportsOkIffMetrics(eventsFile, e);
  }
}

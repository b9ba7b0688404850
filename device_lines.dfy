/**
 * all_devices.py prints instead of writing files: for every report a header
 * line, then one line per row, each the tab-join of its fields. The printed
 * output is modelled as the list of lines it consists of.
 */
module DeviceLines {
  import opened Wrappers
  import opened Reports
  import opened CsvSink
  import opened DateWindows
  import opened Requests

  /** `"\t".join(parts)`: the parts with a tab between neighbours ("" for no parts). */
  function TabJoin(parts: seq<string>): string
  {
    if |parts| == 0 then ""
    else if |parts| == 1 then parts[0]
    else parts[0] + "\t" + TabJoin(parts[1..])
  }

  /** The index of the first tab in `s`, |s| when there is none. */
  function FirstTab(s: string): (i: nat)
    ensures i <= |s|
    ensures forall j :: 0 <= j < i ==> s[j] != '\t'
    ensures i < |s| ==> s[i] == '\t'
  {
    if s == [] || s[0] == '\t' then 0 else 1 + FirstTab(s[1..])
  }

  /** `s.split("\t")`: the pieces between tabs, one more than there are tabs. */
  function SplitTabs(s: string): seq<string>
    decreases |s|
  {
    var i := FirstTab(s);
    if i == |s| then [s] else [s[..i]] + SplitTabs(s[i + 1..])
  }

  predicate NoTab(s: string)
  {
    forall j :: 0 <= j < |s| ==> s[j] != '\t'
  }

  /**
   * Splitting a joined line at its tabs gives the fields back, as long as
   * there is at least one field and no field contains a tab itself.
   */
  lemma {:induction false} SplitJoin(parts: seq<string>)
    requires |parts| > 0
    requires forall k :: 0 <= k < |parts| ==> NoTab(parts[k])
    ensures SplitTabs(TabJoin(parts)) == parts
  {
    if |parts| > 1 {
      var head := parts[0];
      var rest := TabJoin(parts[1..]);
      var s := head + "\t" + rest;
      FirstTabOfJoin(head, rest);
      assert s[..|head|] == head;
      assert s[|head| + 1..] == rest;
      SplitJoin(parts[1..]);
      assert [head] + parts[1..] == parts;
    } else {
      FirstTabOfJoin(parts[0], "");
    }
  }

  /** In `head + "\t" + rest` with a tab-free head, the first tab follows the head. */
  lemma {:induction false} FirstTabOfJoin(head: string, rest: string)
    requires NoTab(head)
    ensures FirstTab(head + "\t" + rest) == |head|
    ensures FirstTab(head) == |head|
  {
    if head != [] {
      assert (head + "\t" + rest)[1..] == head[1..] + "\t" + rest;
      FirstTabOfJoin(head[1..], rest);
    }
  }

  /** The printed output and whether it ran to the end (false: IndexError on a row without metrics). */
  datatype Printed = Printed(lines: seq<string>, ok: bool)

  /**
   * The lines of one report: its header, then its rows as far as the CSV
   * writer would get, each tab-joined.
   */
  function ReportLines(report: Report): Printed
  {
    var w := RowsWritten(report.rows);
    Printed([TabJoin(HeaderLine(report))] + seq(|w.lines|, j requires 0 <= j < |w.lines| => TabJoin(w.lines[j])), w.ok)
  }

  /** print_response: the reports' lines one after the other, up to the first exception. */
  function ResponseLines(reports: seq<Report>): Printed
  {
    if reports == [] then Printed([], true)
    else
      var p := ResponseLines(reports[..|reports| - 1]);
      if !p.ok then p
      else
        var r := ReportLines(reports[|reports| - 1]);
        Printed(p.lines + r.lines, r.ok)
  }

  /** Once a report's rows raised, later reports print nothing. */
  lemma {:induction false} ResponseLinesStuck(reports: seq<Report>, i: nat)
    requires i <= |reports|
    requires !ResponseLines(reports[..i]).ok
    ensures ResponseLines(reports) == ResponseLines(reports[..i])
    decreases |reports| - i
  {
    if i < |reports| {
      assert reports[..i + 1][..i] == reports[..i];
      ResponseLinesStuck(reports, i + 1);
    } else {
      assert reports[..i] == reports;
    }
  }

  /** The inner loop of print_response: one report's header and rows. */
  method PrintReport(report: Report) returns (lines: seq<string>, ok: bool)
    ensures Printed(lines, ok) == ReportLines(report)
  {
    lines := [TabJoin(HeaderLine(report))];
    var rows := report.rows;
    var j := 0;
    assert rows[..0] == [];
    while j < |rows|
      invariant 0 <= j <= |rows|
      invariant RowsWritten(rows[..j]).ok
      invariant var w := RowsWritten(rows[..j]);
        lines == [TabJoin(HeaderLine(report))] + seq(|w.lines|, k requires 0 <= k < |w.lines| => TabJoin(w.lines[k]))
    {
      var row := rows[j];
      assert rows[..j + 1][..j] == rows[..j];
      if |row.metrics| == 0 {
        RowsWrittenStuck(rows, j + 1);
        return lines, false;
      }
      lines := lines + [TabJoin(row.dimensions + row.metrics[0])];
      j := j + 1;
    }
    assert rows[..j] == rows;
    ok := true;
  }

  /** print_response: every report's lines, in order, until a row raises. */
  method PrintResponse(response: Response) returns (lines: seq<string>, ok: bool)
    ensures Printed(lines, ok) == ResponseLines(response.reports)
  {
    var reports := response.reports;
    lines := [];
    var i := 0;
    assert reports[..0] == [];
    while i < |reports|
      invariant 0 <= i <= |reports|
      invariant ResponseLines(reports[..i]) == Printed(lines, true)
    {
      assert reports[..i + 1][..i] == reports[..i];
      var more;
      more, ok := PrintReport(reports[i]);
      lines := lines + more;
      if !ok {
        ResponseLinesStuck(reports, i + 1);
        return;
      }
      i := i + 1;
    }
    assert reports[..i] == reports;
    ok := true;
  }

  /**
   * A report prints its header line first, then row j on line j + 1 as the
   * tab-join of its dimensions and first metric set; it prints 1 + |rows|
   * lines exactly when no row lacks metrics (just the header for no rows).
   */
  lemma ReportLinesShape(report: Report)
    ensures var p := ReportLines(report);
      && p.lines[0] == TabJoin(HeaderLine(report))
      && |p.lines| <= 1 + |report.rows|
      && (forall j :: 0 <= j < |p.lines| - 1 ==>
            HasMetrics(report.rows[j]) && p.lines[j + 1] == TabJoin(DataLine(report.rows[j])))
      && (p.ok <==> forall j :: 0 <= j < |report.rows| ==> HasMetrics(report.rows[j]))
      && (p.ok ==> |p.lines| == 1 + |report.rows|)
  {
    RowsWrittenStopsAtMissingMetrics(report.rows);
  }

  /**
   * The output runs to the end exactly when every row has metrics, and then
   * has one header line per report plus one line per row.
   */
  lemma {:induction false} ResponseLinesCount(reports: seq<Report>)
    ensures ResponseLines(reports).ok <==> AllRowsHaveMetrics(reports)
    ensures ResponseLines(reports).ok ==> |ResponseLines(reports).lines| == |reports| + RowCount(reports)
  {
    if reports != [] {
      var init := reports[..|reports| - 1];
      var last := reports[|reports| - 1];
      ResponseLinesCount(init);
      ReportLinesShape(last);
      assert forall i :: 0 <= i < |init| ==> init[i] == reports[i];
      if !ResponseLines(init).ok {
        var i, j :| 0 <= i < |init| && 0 <= j < |init[i].rows| && !HasMetrics(init[i].rows[j]);
        assert !HasMetrics(reports[i].rows[j]);
      }
    }
  }

  /**
   * Unlike the CSV files, the output repeats the header for every report:
   * report i's header is printed after the i earlier headers and their rows.
   */
  lemma {:induction false} HeaderForEveryReport(reports: seq<Report>, i: nat)
    requires i < |reports|
    requires ResponseLines(reports).ok
    ensures var n := i + RowCount(reports[..i]);
      n < |ResponseLines(reports).lines| && ResponseLines(reports).lines[n] == TabJoin(HeaderLine(reports[i]))
  {
    var init := reports[..|reports| - 1];
    var last := reports[|reports| - 1];
    var p := ResponseLines(init);
    ReportLinesShape(last);
    if i == |reports| - 1 {
      ResponseLinesCount(init);
    } else {
      assert init[..i] == reports[..i];
      assert init[i] == reports[i];
      HeaderForEveryReport(init, i);
    }
  }

  /**
   * The output of the days `days`, one response each, up to the first
   * exception: a failed request (no response) or a row without metrics.
   */
  function DevicesLines(days: seq<int>, source: int -> Option<Response>): Printed
  {
    if days == [] then Printed([], true)
    else
      var p := DevicesLines(days[..|days| - 1], source);
      var answer := source(days[|days| - 1]);
      if !p.ok then p
      else if answer.None? then Printed(p.lines, false)
      else
        var r := ResponseLines(answer.value.reports);
        Printed(p.lines + r.lines, r.ok)
  }

  /** Every day was answered and every row of every answer has metrics. */
  predicate DaysPrintable(days: seq<int>, source: int -> Option<Response>)
  {
    forall i :: 0 <= i < |days| ==> source(days[i]).Some? && AllRowsHaveMetrics(source(days[i]).value.reports)
  }

  /** The script prints every day through exactly when no request fails and no row lacks metrics. */
  lemma {:induction false} DevicesLinesOk(days: seq<int>, source: int -> Option<Response>)
    ensures DevicesLines(days, source).ok <==> DaysPrintable(days, source)
  {
    if days != [] {
      var init := days[..|days| - 1];
      var d := days[|days| - 1];
      DevicesLinesOk(init, source);
      assert forall i :: 0 <= i < |init| ==> init[i] == days[i];
      if source(d).Some? {
        ResponseLinesCount(source(d).value.reports);
      }
    }
  }

  /** Printed lines are never taken back: the output of the first i days begins the output of all days. */
  lemma {:induction false} DevicesLinesPrefix(days: seq<int>, source: int -> Option<Response>, i: nat)
    requires i <= |days|
    ensures DevicesLines(days[..i], source).lines <= DevicesLines(days, source).lines
    decreases |days| - i
  {
    if i < |days| {
      assert days[..i] == days[..i + 1][..i];
      DevicesLinesPrefix(days, source, i + 1);
    } else {
      assert days[..i] == days;
    }
  }

  /**
   * main of all_devices.py: one request DevicesBatch(day) per day from start
   * through end, ascending, with no page token, each response printed in
   * turn; an exception ends the script on the last day requested.
   */
  method RunDevices(start: int, end: int, source: int -> Option<Response>) returns (fetched: seq<int>, lines: seq<string>, ok: bool)
    ensures fetched <= DailyDays(start, end)
    ensures Printed(lines, ok) == DevicesLines(fetched, source)
    ensures ok ==> fetched == DailyDays(start, end)
    ensures !ok ==> fetched != [] && DevicesLines(fetched[..|fetched| - 1], source).ok
  {
    var days := DailyDates(start, end);
    fetched := [];
    lines := [];
    ok := true;
    var i := 0;
    while i < |days|
      invariant 0 <= i <= |days|
      invariant fetched == days[..i]
      invariant DevicesLines(fetched, source) == Printed(lines, true)
    {
      var d := days[i];
      assert (fetched + [d])[..|fetched|] == fetched;
      fetched := fetched + [d];
      assert fetched == days[..i + 1];
      var answer := source(d);
      if answer.None? {
        ok := false;
        return;
      }
      var printed;
      printed, ok := PrintResponse(answer.value);
      lines := lines + printed;
      if !ok {
        return;
      }
      i := i + 1;
    }
  }
}

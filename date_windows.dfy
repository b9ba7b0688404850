/**
 * The date-window generators of the export scripts, on day ordinals
 * (`datetime.toordinal()`): the weekly generator of all_pages_events.py,
 * whose end date is exclusive, and the daily generator shared by
 * all_traffic.py and all_devices.py, whose end date is inclusive.
 */
module DateWindows {

  /** A date range handed to the reporting API: both ends inclusive. */
  datatype Window = Window(start: int, end: int)

  /** 2017-05-15, the first day every dated script asks for. */
  const FirstDay: int := 736464
  /** 2023-08-07, the end date every dated script is given. */
  const LastDay: int := 738739

  function Min(a: int, b: int): int { if a <= b then a else b }

  /** Number of windows the weekly generator yields: ceil((end - start) / 7), or none. */
  function WeekCount(start: int, end: int): nat
  {
    if start < end then (end - start + 6) / 7 else 0
  }

  /** Window i of the weekly generator is [start + 7i, min(start + 7(i + 1), end) - 1]. */
  function WeeklyWindows(start: int, end: int): seq<Window>
  {
    seq(WeekCount(start, end), i => Window(start + 7 * i, Min(start + 7 * (i + 1), end) - 1))
  }

  lemma WeekCountBounds(start: int, end: int, n: nat)
    requires start < end
    requires n == WeekCount(start, end)
    ensures n >= 1
    ensures start + 7 * (n - 1) < end <= start + 7 * n
  {
  }

  /**
   * generate_date_ranges of all_pages_events.py: starting at `start`, while the
   * current day is before `end`, yield the week from it, cut off at `end - 1`,
   * and step seven days on.
   */
  method WeeklyDateRanges(start: int, end: int) returns (windows: seq<Window>)
    ensures windows == WeeklyWindows(start, end)
  {
    windows := [];
    var current := start;
    while current < end
      invariant current == start + 7 * |windows|
      invariant |windows| <= WeekCount(start, end)
      invariant windows == WeeklyWindows(start, end)[..|windows|]
      invariant |windows| > 0 ==> current - 7 < end
      decreases end - current
    {
      if start < end {
        WeekCountBounds(start, end, WeekCount(start, end));
      }
      var next := current + 7;
      windows := windows + [Window(current, Min(next, end) - 1)];
      current := next;
    }
    if start < end {
      WeekCountBounds(start, end, WeekCount(start, end));
    }
  }

  /** Every weekly window is non-empty and at most seven days long; none when start >= end. */
  lemma WeeklyWindowsShape(start: int, end: int)
    ensures start >= end ==> WeeklyWindows(start, end) == []
    ensures forall w :: w in WeeklyWindows(start, end) ==>
      start <= w.start <= w.end < end && w.end - w.start < 7
  {
    var ws := WeeklyWindows(start, end);
    forall w | w in ws
      ensures start <= w.start <= w.end < end && w.end - w.start < 7
    {
      var i :| 0 <= i < |ws| && ws[i] == w;
      WeekCountBounds(start, end, |ws|);
    }
  }

  /** Consecutive weekly windows touch: each starts the day after the previous one ends. */
  lemma WeeklyWindowsContiguous(start: int, end: int)
    ensures forall i :: 0 < i < |WeeklyWindows(start, end)| ==>
      WeeklyWindows(start, end)[i].start == WeeklyWindows(start, end)[i - 1].end + 1
  {
    var ws := WeeklyWindows(start, end);
    forall i | 0 < i < |ws|
      ensures ws[i].start == ws[i - 1].end + 1
    {
      WeekCountBounds(start, end, |ws|);
    }
  }

  /**
   * The weekly windows start at `start` and the last one ends at `end - 1`:
   * the day `end` itself is never requested.
   */
  lemma WeeklyWindowsEnds(start: int, end: int)
    requires start < end
    ensures |WeeklyWindows(start, end)| > 0
    ensures WeeklyWindows(start, end)[0].start == start
    ensures WeeklyWindows(start, end)[|WeeklyWindows(start, end)| - 1].end == end - 1
  {
    WeekCountBounds(start, end, WeekCount(start, end));
  }

  /** The weekly windows cover exactly the days start .. end - 1, each day in exactly one window. */
  lemma WeeklyWindowsCover(start: int, end: int, d: int)
    ensures (exists i :: 0 <= i < |WeeklyWindows(start, end)| &&
              WeeklyWindows(start, end)[i].start <= d <= WeeklyWindows(start, end)[i].end)
            <==> start <= d < end
    ensures forall i, j :: (0 <= i < |WeeklyWindows(start, end)| && 0 <= j < |WeeklyWindows(start, end)| &&
              WeeklyWindows(start, end)[i].start <= d <= WeeklyWindows(start, end)[i].end &&
              WeeklyWindows(start, end)[j].start <= d <= WeeklyWindows(start, end)[j].end) ==> i == j
  {
    var ws := WeeklyWindows(start, end);
    WeeklyWindowsShape(start, end);
    if start <= d < end {
      var i := (d - start) / 7;
      WeekCountBounds(start, end, |ws|);
      assert 0 <= i < |ws|;
      assert ws[i].start <= d <= ws[i].end;
    }
    forall i, j | 0 <= i < j < |ws|
      ensures ws[i].end < ws[j].start
    {
      assert ws[i].end < start + 7 * (i + 1) <= ws[j].start;
    }
  }

  /** Days 1..10 of a month with the exclusive end 10 give the weeks 1-7 and 8-9. */
  lemma WeeklyScenario(first: int)
    ensures WeeklyWindows(first, first + 9) == [Window(first, first + 6), Window(first + 7, first + 8)]
  {
    assert WeekCount(first, first + 9) == 2;
  }

  /** The run from 2017-05-15 to 2023-08-07 is 325 full weeks, the last ending 2023-08-06. */
  lemma WeeklyRunSpan()
    ensures |WeeklyWindows(FirstDay, LastDay)| == 325
    ensures WeeklyWindows(FirstDay, LastDay)[324] == Window(738732, 738738)
    ensures forall w :: w in WeeklyWindows(FirstDay, LastDay) ==> w.end - w.start == 6
  {
    var ws := WeeklyWindows(FirstDay, LastDay);
    forall w | w in ws
      ensures w.end - w.start == 6
    {
      var i :| 0 <= i < |ws| && ws[i] == w;
      assert FirstDay + 7 * (i + 1) <= LastDay;
    }
  }

  /** Number of days from start through end inclusive. */
  function DayCount(start: int, end: int): nat
  {
    if start <= end then end - start + 1 else 0
  }

  /** The days the daily generator yields: start, start + 1, ..., end. */
  function DailyDays(start: int, end: int): seq<int>
  {
    seq(DayCount(start, end), i => start + i)
  }

  /**
   * generate_date_ranges of all_traffic.py and all_devices.py: yield the current
   * day while it is not after `end`, then advance one day.
   */
  method DailyDates(start: int, end: int) returns (days: seq<int>)
    ensures days == DailyDays(start, end)
  {
    days := [];
    var current := start;
    while current <= end
      invariant current == start + |days|
      invariant start <= end ==> current <= end + 1
      invariant |days| <= DayCount(start, end)
      invariant days == DailyDays(start, end)[..|days|]
      decreases end - current
    {
      days := days + [current];
      current := current + 1;
    }
  }

  /**
   * The daily generator yields each day from start through end exactly once, in
   * ascending order, and nothing when start > end.
   */
  lemma DailyDaysExact(start: int, end: int)
    ensures |DailyDays(start, end)| == if start <= end then end - start + 1 else 0
    ensures forall d :: d in DailyDays(start, end) <==> start <= d <= end
    ensures forall i, j :: 0 <= i < j < |DailyDays(start, end)| ==> DailyDays(start, end)[i] < DailyDays(start, end)[j]
  {
    var ds := DailyDays(start, end);
    forall d | start <= d <= end
      ensures d in ds
    {
      assert ds[d - start] == d;
    }
  }
}

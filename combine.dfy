/**
 * combine.py: every `.csv` file of a directory listing whose name contains a
 * date range `YYYY-MM-DD_to_YYYY-MM-DD` is read, each of its records gets two
 * more columns `start_date` and `end_date` holding the range's two dates, and
 * the records of all those files are concatenated in listing order. A record
 * is a map from column name to value, as a DataFrame row is; the listing and
 * the parsed contents of each file are inputs.
 */
module Combine {
  import opened Wrappers

  type Record = map<string, string>

  /** One entry of the directory listing, with the records `pd.read_csv` would read from it. */
  datatype CsvFile = CsvFile(name: string, records: seq<Record>)

  /** The two dates of a match, as the regular expression's two groups. */
  datatype Range = Range(start: string, end: string)

  /** `filename.endswith('.csv')` */
  predicate EndsWithCsv(name: string)
  {
    |name| >= 4 && name[|name| - 4..] == ".csv"
  }

  /** `\d`, for the ASCII digits. */
  predicate IsDigit(c: char)
  {
    '0' <= c <= '9'
  }

  /** `\d{4}-\d{2}-\d{2}` matched in full. */
  predicate IsDate(s: string)
  {
    && |s| == 10
    && IsDigit(s[0]) && IsDigit(s[1]) && IsDigit(s[2]) && IsDigit(s[3])
    && s[4] == '-' && IsDigit(s[5]) && IsDigit(s[6])
    && s[7] == '-' && IsDigit(s[8]) && IsDigit(s[9])
  }

  /** The pattern matches the 24 characters of `name` from index i on. */
  predicate MatchesAt(name: string, i: nat)
  {
    && i + 24 <= |name|
    && IsDate(name[i..i + 10])
    && name[i + 10..i + 14] == "_to_"
    && IsDate(name[i + 14..i + 24])
  }

  /** The leftmost index from i on where the pattern matches, as `re.search` scans. */
  function FirstMatchFrom(name: string, i: nat): (r: Option<nat>)
    ensures r.Some? ==> i <= r.value && MatchesAt(name, r.value)
    ensures r.Some? ==> forall j :: i <= j < r.value ==> !MatchesAt(name, j)
    ensures r.None? ==> forall j :: i <= j ==> !MatchesAt(name, j)
    decreases |name| - i
  {
    if i + 24 > |name| then None
    else if MatchesAt(name, i) then Some(i)
    else FirstMatchFrom(name, i + 1)
  }

  /** `date_range_regex.search(name)` and its `groups()`. */
  function DateRange(name: string): Option<Range>
  {
    match FirstMatchFrom(name, 0)
    case None => None
    case Some(k) => Some(Range(name[k..k + 10], name[k + 14..k + 24]))
  }

  /**
   * A range is found exactly when the pattern matches somewhere, and then it
   * is the two dates of the leftmost match.
   */
  lemma DateRangeIsLeftmostMatch(name: string, k: nat)
    ensures DateRange(name).None? <==> forall j :: !MatchesAt(name, j)
    ensures MatchesAt(name, k) && (forall j :: 0 <= j < k ==> !MatchesAt(name, j)) ==>
      DateRange(name) == Some(Range(name[k..k + 10], name[k + 14..k + 24]))
  {
    var r := FirstMatchFrom(name, 0);
    if r.Some? && MatchesAt(name, k) && (forall j :: 0 <= j < k ==> !MatchesAt(name, j)) {
      assert !(r.value < k);
      assert !(k < r.value);
    }
  }

  /** The dates of a range found are both of the form YYYY-MM-DD. */
  lemma DateRangeGivesDates(name: string)
    requires DateRange(name).Some?
    ensures IsDate(DateRange(name).value.start) && IsDate(DateRange(name).value.end)
  {
    var k := FirstMatchFrom(name, 0).value;
    assert MatchesAt(name, k);
  }

  /** The file is read and tagged: a `.csv` name with a date range in it. */
  predicate Included(f: CsvFile)
  {
    EndsWithCsv(f.name) && DateRange(f.name).Some?
  }

  /** `df['start_date'] = start_date; df['end_date'] = end_date` on every record. */
  function Tag(records: seq<Record>, r: Range): seq<Record>
  {
    seq(|records|, j requires 0 <= j < |records| => records[j]["start_date" := r.start]["end_date" := r.end])
  }

  /** The `dfs` list after the loop over `listing`: one tagged frame per included file. */
  function Frames(listing: seq<CsvFile>): seq<seq<Record>>
  {
    if listing == [] then []
    else
      var f := listing[|listing| - 1];
      Frames(listing[..|listing| - 1]) + (if Included(f) then [Tag(f.records, DateRange(f.name).value)] else [])
  }

  /** The included files of the listing, in listing order. */
  function IncludedFiles(listing: seq<CsvFile>): seq<CsvFile>
  {
    if listing == [] then []
    else
      var f := listing[|listing| - 1];
      IncludedFiles(listing[..|listing| - 1]) + (if Included(f) then [f] else [])
  }

  /** `pd.concat(frames, ignore_index=True)`: the records of all frames, frame after frame. */
  function Concat(frames: seq<seq<Record>>): seq<Record>
  {
    if frames == [] then [] else Concat(frames[..|frames| - 1]) + frames[|frames| - 1]
  }

  /** The number of records of several files together. */
  function RecordCount(files: seq<CsvFile>): nat
  {
    if files == [] then 0 else RecordCount(files[..|files| - 1]) + |files[|files| - 1].records|
  }

  /**
   * The script: the loop appends a tagged frame per included file, then the
   * frames are concatenated; with no frame at all `pd.concat([])` raises
   * ValueError and nothing is written (None).
   */
  method CombineListing(listing: seq<CsvFile>) returns (combined: Option<seq<Record>>)
    ensures combined.None? <==> Frames(listing) == []
    ensures combined.Some? ==> combined.value == Concat(Frames(listing))
  {
    var dfs: seq<seq<Record>> := [];
    var i := 0;
    assert listing[..0] == [];
    while i < |listing|
      invariant 0 <= i <= |listing|
      invariant dfs == Frames(listing[..i])
    {
      var file := listing[i];
      assert listing[..i + 1][..i] == listing[..i];
      if EndsWithCsv(file.name) {
        var found := DateRange(file.name);
        if found.Some? {
          var df := file.records;
          var tagged := [];
          var j := 0;
          while j < |df|
            invariant 0 <= j <= |df|
            invariant tagged == Tag(df[..j], found.value)
          {
            assert df[..j + 1][..j] == df[..j];
            tagged := tagged + [df[j]["start_date" := found.value.start]["end_date" := found.value.end]];
            j := j + 1;
          }
          assert df[..j] == df;
          dfs := dfs + [tagged];
        }
      }
      i := i + 1;
    }
    assert listing[..i] == listing;
    if dfs == [] {
      return None;
    }
    combined := Some(Concat(dfs));
  }

  /** A file is among the included ones exactly when it is listed, ends in `.csv` and has a range. */
  lemma {:induction false} IncludedFilesFilter(listing: seq<CsvFile>)
    ensures forall f :: f in IncludedFiles(listing) <==> f in listing && Included(f)
  {
    if listing != [] {
      var init := listing[..|listing| - 1];
      IncludedFilesFilter(init);
      assert listing == init + [listing[|listing| - 1]];
    }
  }

  /** Frame k is the k-th included file's records, each tagged with that file's own range. */
  lemma {:induction false} FramesTagIncludedFiles(listing: seq<CsvFile>)
    ensures |Frames(listing)| == |IncludedFiles(listing)|
    ensures forall k :: 0 <= k < |Frames(listing)| ==>
      Included(IncludedFiles(listing)[k]) &&
      Frames(listing)[k] == Tag(IncludedFiles(listing)[k].records, DateRange(IncludedFiles(listing)[k].name).value)
  {
    if listing != [] {
      FramesTagIncludedFiles(listing[..|listing| - 1]);
    }
  }

  /** The combined table has as many records as the included files together. */
  lemma {:induction false} CombinedRecordCount(listing: seq<CsvFile>)
    ensures |Concat(Frames(listing))| == RecordCount(IncludedFiles(listing))
  {
    if listing != [] {
      var init := listing[..|listing| - 1];
      var f := listing[|listing| - 1];
      CombinedRecordCount(init);
      if Included(f) {
        var fr := Frames(init) + [Tag(f.records, DateRange(f.name).value)];
        assert fr[..|fr| - 1] == Frames(init);
        var fs := IncludedFiles(init) + [f];
        assert fs[..|fs| - 1] == IncludedFiles(init);
      } else {
        assert Frames(listing) == Frames(init) + [];
        assert Frames(init) + [] == Frames(init);
        assert IncludedFiles(listing) == IncludedFiles(init) + [];
        assert IncludedFiles(init) + [] == IncludedFiles(init);
      }
    }
  }

  /**
   * Every combined record carries `start_date` and `end_date`, and both hold
   * a date of the form YYYY-MM-DD.
   */
  lemma {:induction false} EveryRecordTagged(listing: seq<CsvFile>)
    ensures forall x :: x in Concat(Frames(listing)) ==>
      "start_date" in x && "end_date" in x && IsDate(x["start_date"]) && IsDate(x["end_date"])
  {
    if listing != [] {
      var init := listing[..|listing| - 1];
      var f := listing[|listing| - 1];
      EveryRecordTagged(init);
      if Included(f) {
        var r := DateRange(f.name).value;
        DateRangeGivesDates(f.name);
        var t := Tag(f.records, r);
        var fr := Frames(init) + [t];
        assert fr[..|fr| - 1] == Frames(init);
        forall x | x in t
          ensures "start_date" in x && "end_date" in x && IsDate(x["start_date"]) && IsDate(x["end_date"])
        {
          var j :| 0 <= j < |t| && t[j] == x;
        }
      } else {
        assert Frames(listing) == Frames(init) + [];
        assert Frames(init) + [] == Frames(init);
      }
    }
  }

  /** The leading parts of the page and events file names the fetch scripts write. */
  const PagesPrefix: string := "UniversalAnalytics_AllPages_"
  const EventsPrefix: string := "UniversalAnalytics_AllPages_Events_"

  predicate NoDigit(s: string)
  {
    forall j :: 0 <= j < |s| ==> !IsDigit(s[j])
  }

  lemma PrefixesHaveNoDigit()
    ensures NoDigit(PagesPrefix) && NoDigit(EventsPrefix)
  {
  }

  /** No match can start inside a digit-free prefix of a name. */
  lemma NoMatchInPrefix(prefix: string, rest: string, j: nat)
    requires NoDigit(prefix) && j < |prefix|
    ensures !MatchesAt(prefix + rest, j)
  {
    var name := prefix + rest;
    if j + 24 <= |name| {
      assert name[j..j + 10][0] == prefix[j];
    }
  }

  /**
   * The files of all_pages_events_full.py, `..._{start}_to_{end}.csv`, are
   * combined, tagged with exactly their own two dates.
   */
  lemma FullRangeNamesAreCombined(prefix: string, start: string, end: string)
    requires prefix == PagesPrefix || prefix == EventsPrefix
    requires IsDate(start) && IsDate(end)
    ensures var name := prefix + start + "_to_" + end + ".csv";
      EndsWithCsv(name) && DateRange(name) == Some(Range(start, end))
  {
    PrefixesHaveNoDigit();
    var name := prefix + start + "_to_" + end + ".csv";
    var k := |prefix|;
    assert name[k..k + 10] == start;
    assert name[k + 10..k + 14] == "_to_";
    assert name[k + 14..k + 24] == end;
    assert name[|name| - 4..] == ".csv";
    forall j | 0 <= j < k
      ensures !MatchesAt(name, j)
    {
      assert name == prefix + (start + "_to_" + end + ".csv");
      NoMatchInPrefix(prefix, start + "_to_" + end + ".csv", j);
    }
    DateRangeIsLeftmostMatch(name, k);
  }

  /**
   * The weekly files of all_pages_events.py, `..._{start}_{end}.csv`, have no
   * `_to_` between their dates and are never combined.
   */
  lemma WeeklyNamesAreSkipped(prefix: string, start: string, end: string)
    requires prefix == PagesPrefix || prefix == EventsPrefix
    requires IsDate(start) && IsDate(end)
    ensures DateRange(prefix + start + "_" + end + ".csv") == None
  {
    PrefixesHaveNoDigit();
    var name := prefix + start + "_" + end + ".csv";
    var k := |prefix|;
    forall j: nat
      ensures !MatchesAt(name, j)
    {
      if j < k {
        assert name == prefix + (start + "_" + end + ".csv");
        NoMatchInPrefix(prefix, start + "_" + end + ".csv", j);
      } else if j == k {
        if j + 24 <= |name| {
          assert name[j + 10..j + 14][1] == end[0];
        }
      } else if j == k + 1 {
        assert name[j..j + 10][4] == start[5];
      }
    }
    DateRangeIsLeftmostMatch(name, 0);
  }
}

/**
 * The bodies `get_report` sends to the reporting API's batchGet, one list of
 * report requests per call. Only their content is modelled; sending them is
 * the Report Source's business.
 */
module Requests {
  import opened Wrappers
  import opened DateWindows
  import opened CsvSink

  /** A date the API understands: a calendar day, or a day relative to today. */
  datatype DateSpec = Day(ordinal: int) | DaysAgo(days: nat)

  datatype DimensionFilter = DimensionFilter(dimensionName: string, operator: string, negate: bool, expressions: seq<string>)

  datatype ReportRequest = ReportRequest(
    viewId: string,
    startDate: DateSpec,
    endDate: DateSpec,
    metrics: seq<string>,
    dimensions: seq<string>,
    filters: seq<DimensionFilter>,
    pageToken: Option<string>,
    pageSize: nat)

  const ViewId: string := "150538750"
  const PageSize: nat := 10000

  /** 2014-11-01, the fixed start of ua_pages.py's range. */
  const UaFirstDay: int := 735538

  const PageMetrics: seq<string> :=
    ["ga:pageviews", "ga:uniquePageviews", "ga:avgTimeOnPage", "ga:entrances", "ga:bounceRate", "ga:exitRate"]
  const TrafficMetrics: seq<string> :=
    ["ga:users", "ga:newUsers", "ga:sessions", "ga:bounceRate", "ga:pageviewsPerSession", "ga:avgSessionDuration"]
  const DeviceDimensions: seq<string> :=
    ["ga:channelGrouping", "ga:deviceCategory", "ga:browser", "ga:operatingSystem"]

  /** Page paths with a query string are filtered out of the page report. */
  const NoQueryString: DimensionFilter := DimensionFilter("ga:pagePath", "REGEXP", true, ["\\?.*"])

  /** The two report requests of all_pages_events.py and all_pages_events_full.py. */
  function AllPagesBatch(w: Window, token: Option<string>): (batch: seq<ReportRequest>)
    ensures |batch| == 2
    ensures batch[0].pageToken == token && batch[1].pageToken == token
    ensures forall q :: q in batch ==> q.startDate == Day(w.start) && q.endDate == Day(w.end)
    ensures batch[1].dimensions == EventDimensions && batch[0].dimensions != EventDimensions
  {
    [ ReportRequest(ViewId, Day(w.start), Day(w.end), PageMetrics, ["ga:pagePath"], [NoQueryString], token, PageSize),
      ReportRequest(ViewId, Day(w.start), Day(w.end), ["ga:totalEvents"], EventDimensions, [], token, PageSize) ]
  }

  /** `get_report` of the page-and-events scripts for a fixed window, as a function of the page token. */
  function AllPagesBuild(w: Window): Option<string> -> seq<ReportRequest>
  {
    t => AllPagesBatch(w, t)
  }

  /** The one report request of ua_pages.py: 2014-11-01 to "400daysAgo". */
  function UaPagesBatch(token: Option<string>): (batch: seq<ReportRequest>)
    ensures |batch| == 1 && batch[0].pageToken == token
    ensures batch[0].startDate == Day(UaFirstDay) && batch[0].endDate == DaysAgo(400)
  {
    [ReportRequest(ViewId, Day(UaFirstDay), DaysAgo(400), PageMetrics, ["ga:pagePath"], [NoQueryString], token, PageSize)]
  }

  /** The one-day request of all_traffic.py: no page token, so only the first page ever comes back. */
  function TrafficBatch(day: int): (batch: seq<ReportRequest>)
    ensures |batch| == 1 && batch[0].pageToken == None
    ensures batch[0].startDate == Day(day) && batch[0].endDate == Day(day)
  {
    [ReportRequest(ViewId, Day(day), Day(day), TrafficMetrics, ["ga:channelGrouping"], [], None, PageSize)]
  }

  /** The one-day request of all_devices.py, also without a page token. */
  function DevicesBatch(day: int): (batch: seq<ReportRequest>)
    ensures |batch| == 1 && batch[0].pageToken == None
    ensures batch[0].startDate == Day(day) && batch[0].endDate == Day(day)
  {
    [ReportRequest(ViewId, Day(day), Day(day), TrafficMetrics, DeviceDimensions, [], None, PageSize)]
  }
}

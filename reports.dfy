/**
 * The parts of a reporting-API batchGet response that the scripts read:
 * per report, the column header (dimension names, metric names), the data rows
 * and the continuation cursor `nextPageToken`. A key missing from the JSON is
 * the empty list here, as the scripts' `.get(key, [])` makes it.
 */
module Reports {
  import opened Wrappers

  /** One data row: its dimension values and one value list per date range. */
  datatype Row = Row(dimensions: seq<string>, metrics: seq<seq<string>>)

  datatype Report = Report(
    dimensionHeaders: seq<string>,
    metricHeaders: seq<string>,
    rows: seq<Row>,
    nextPageToken: Option<string>)

  /** One page: the reports answering the request's report requests, in order. */
  datatype Response = Response(reports: seq<Report>)

  /** A CSV record or a printed line, as its list of fields. */
  type Line = seq<string>

  /** The header record: dimension names followed by metric names. */
  function HeaderLine(report: Report): Line
  {
    report.dimensionHeaders + report.metricHeaders
  }

  /** `row.get('metrics', [])[0]` succeeds only when the row has a metric set. */
  predicate HasMetrics(row: Row)
  {
    |row.metrics| > 0
  }

  /** A data record: the row's dimensions followed by its first metric set's values. */
  function DataLine(row: Row): Line
    requires HasMetrics(row)
  {
    row.dimensions + row.metrics[0]
  }

  /** Python truthiness of a token: both None and "" end the pagination loop. */
  predicate IsFalsy(token: Option<string>)
  {
    token.None? || token.value == ""
  }

  /** The reports of several pages, page after page. */
  function AllReports(pages: seq<Response>): seq<Report>
  {
    if pages == [] then [] else AllReports(pages[..|pages| - 1]) + pages[|pages| - 1].reports
  }
}

/** The chart side of generate_report and the routes around it: which file a
    report_type is drawn into, which endpoint serves it, and the route defaults. */
module Charts {
  import opened Sales
  import opened Format

  /** The three chart layouts. */
  datatype Style = Bar | Dotted | Combined

  /** The if/elif/else on report_type: anything but 'bar' or 'dotted' is drawn combined. */
  function StyleOf(reportType: string): Style
  {
    if reportType == "bar" then Bar
    else if reportType == "dotted" then Dotted
    else Combined
  }

  function FileName(style: Style): string
  {
    match style
    case Bar => "bar_graph.png"
    case Dotted => "dotted_graph.png"
    case Combined => "combined_graph.png"
  }

  const ReportsDirectory: string := "reports"

  /** os.path.join for a relative file name under a directory not ending in '/'. */
  function Join(directory: string, name: string): string
  {
    directory + "/" + name
  }

  /** The plot_path generate_report saves to and returns. */
  function ChartPath(reportType: string): string
  {
    Join(ReportsDirectory, FileName(StyleOf(reportType)))
  }

  /** The dispatch table: 'bar' and 'dotted' have their own files, every other
      string goes to the combined chart. */
  lemma ChartPathTable(reportType: string)
    ensures reportType == "bar" ==> ChartPath(reportType) == "reports/bar_graph.png"
    ensures reportType == "dotted" ==> ChartPath(reportType) == "reports/dotted_graph.png"
    ensures reportType != "bar" && reportType != "dotted" ==>
              ChartPath(reportType) == "reports/combined_graph.png"
  {
  }

  /** Two report types share a chart file exactly when they select the same layout. */
  lemma ChartPathsDistinct(t1: string, t2: string)
    ensures ChartPath(t1) == ChartPath(t2) <==> StyleOf(t1) == StyleOf(t2)
  {
  }

  /** What a saved chart shows, abstracted from the rendering: its layout, the
      x positions (Months_Since_Start) and the tick label drawn at each. */
  datatype Chart = Chart(style: Style, positions: seq<int>, ticks: seq<string>)

  function Render(style: Style, rows: seq<Record>): Chart
  {
    Chart(style,
          seq(|rows|, i requires 0 <= i < |rows| => Feature(rows[i])),
          seq(|rows|, i requires 0 <= i < |rows| => TickLabel(rows[i].year, rows[i].month)))
  }

  /** With months in 1..12, two rows share an x position exactly when they share
      a tick label, and exactly when they are in the same period. */
  lemma TicksMatchPositions(style: Style, rows: seq<Record>, i: int, j: int)
    requires 0 <= i < |rows| && 0 <= j < |rows|
    requires 1 <= rows[i].month <= 12 && 1 <= rows[j].month <= 12
    ensures var c := Render(style, rows);
            |c.positions| == |c.ticks| == |rows| &&
            (c.positions[i] == c.positions[j] <==> c.ticks[i] == c.ticks[j]) &&
            (c.ticks[i] == c.ticks[j] <==> rows[i].year == rows[j].year && rows[i].month == rows[j].month)
  {
    FeatureInjective(rows[i].year, rows[i].month, rows[j].year, rows[j].month);
    TickLabelInjective(rows[i].year, rows[i].month, rows[j].year, rows[j].month);
  }

  /** The graph_endpoint chosen by the /generate_report route. */
  function GraphEndpoint(reportType: string): string
  {
    if reportType == "bar" then "generated_bar_graph"
    else if reportType == "dotted" then "generated_dotted_graph"
    else "generated_combined_graph"
  }

  /** The file each chart endpoint sends; None for a name that is no chart endpoint. */
  function EndpointFile(endpoint: string): Option<string>
  {
    if endpoint == "generated_bar_graph" then Some("reports/bar_graph.png")
    else if endpoint == "generated_dotted_graph" then Some("reports/dotted_graph.png")
    else if endpoint == "generated_combined_graph" then Some("reports/combined_graph.png")
    else None
  }

  /** The endpoint the route links to serves the very file generate_report wrote. */
  lemma EndpointServesChart(reportType: string)
    ensures EndpointFile(GraphEndpoint(reportType)) == Some(ChartPath(reportType))
  {
    ChartPathTable(reportType);
  }

  /** Defaults of the /generate_report route's query arguments. */
  const DefaultYear: int := 2024
  const DefaultMonth: int := 1
  const DefaultType: string := "bar"

  function OrDefault<T>(o: Option<T>, default: T): T
  {
    match o
    case Some(v) => v
    case None => default
  }

  /** A request without a type is drawn as a bar chart (not combined), in
      reports/bar_graph.png, linked through generated_bar_graph. */
  lemma MissingTypeIsBar()
    ensures StyleOf(OrDefault(None, DefaultType)) == Bar
    ensures ChartPath(OrDefault(None, DefaultType)) == "reports/bar_graph.png"
    ensures GraphEndpoint(OrDefault(None, DefaultType)) == "generated_bar_graph"
  {
  }
}

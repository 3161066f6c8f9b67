/** The stateful part of the application: the sales DataFrame that gains a
    Predicted Sales column, the reports/ directory, generate_report,
    write_predicted_sales and the routes that call them. */
module App {
  import opened Sales
  import opened Report
  import opened Charts
  import opened Export

  /** A DataFrame of sales records. The Predicted Sales column is absent until a
      prediction is assigned into the frame. */
  class SalesFrame {
    var rows: seq<Record>
    var predicted: Option<seq<real>>

    ghost predicate Valid()
      reads this
    {
      predicted.Some? ==> |predicted.value| == |rows|
    }

    constructor (rows: seq<Record>)
      ensures Valid() && this.rows == rows && predicted == None
    {
      this.rows := rows;
      predicted := None;
    }

    /** data['Predicted Sales'] = model.predict(data[['Months_Since_Start']]):
        the column is added, or replaced when it is already there. */
    method AssignPredictions(model: Model)
      requires |rows| > 0
      modifies this
      ensures Valid() && rows == old(rows)
      ensures predicted == Some(PredictColumn(model, rows))
    {
      predicted := Some(PredictColumn(model, rows));
    }

    /** data[['Product', 'Year', 'Month', 'Predicted Sales', 'Sales']] */
    function Projection(): seq<ReportRow>
      reads this
      requires Valid() && predicted.Some?
    {
      Project(rows, predicted.value)
    }
  }

  /** The reports/ directory: chart images and spreadsheet workbooks by path. */
  class ReportsFolder {
    var charts: map<string, Chart>
    var workbooks: map<string, seq<SheetRow>>

    /** Every workbook this program writes starts with the column header. */
    ghost predicate Valid()
      reads this
    {
      forall p :: p in workbooks ==> |workbooks[p]| > 0 && workbooks[p][0] == Header
    }

    /** An empty reports/ directory: no endpoint has a chart to send yet. */
    constructor ()
      ensures Valid() && charts == map[] && workbooks == map[]
      ensures forall endpoint :: Serve(endpoint) == None
    {
      charts := map[];
      workbooks := map[];
    }

    /** plt.savefig(path): the image at path is replaced, nothing else changes. */
    method SaveChart(path: string, chart: Chart)
      modifies this
      ensures charts == old(charts)[path := chart]
      ensures workbooks == old(workbooks)
    {
      charts := charts[path := chart];
    }

    /** The export's two branches: append below the last row of an existing
        workbook, without a header, or create the workbook with a header. */
    method WriteSheet(path: string, rows: seq<ReportRow>)
      modifies this
      ensures workbooks == old(workbooks)[path :=
                if path in old(workbooks) then Appended(old(workbooks)[path], rows) else NewSheet(rows)]
      ensures charts == old(charts)
      ensures old(Valid()) ==> Valid()
    {
      if path in workbooks {
        AppendKeepsExistingRows(workbooks[path], rows);
        workbooks := workbooks[path := Appended(workbooks[path], rows)];
      } else {
        workbooks := workbooks[path := NewSheet(rows)];
      }
    }

    /** send_file behind a chart endpoint: the saved chart, or None when the
        endpoint is unknown or its chart was never generated. */
    function Serve(endpoint: string): Option<Chart>
      reads this
    {
      match EndpointFile(endpoint)
      case Some(path) => if path in charts then Some(charts[path]) else None
      case None => None
    }
  }

  /** Why a request fails: model.predict refuses a frame with zero rows. */
  datatype Failure = NoSamples

  datatype Result<T> = Ok(value: T) | Err(failure: Failure)

  /** What generate_report returns: the report table and the path of the chart. */
  datatype Generated = Generated(report: seq<ReportRow>, plotPath: string)

  /** generate_report: filter on the cutoff when both bounds are given, predict,
      project, and draw the chart chosen by report_type into reports/. Without
      both bounds the frame passed in is the one that gains the column. When no
      row is left to predict on, predict raises before anything is assigned or
      drawn. */
  method GenerateReport(data: SalesFrame, model: Model, reportType: string,
                        year: Option<int>, month: Option<int>, folder: ReportsFolder)
    returns (result: Result<Generated>)
    requires data.Valid()
    modifies data, folder
    ensures result.Err? <==> ApplyCutoff(old(data.rows), year, month) == []
    ensures result.Ok? ==>
              && result.value.report == ReportOf(model, ApplyCutoff(old(data.rows), year, month))
              && result.value.plotPath == ChartPath(reportType)
              && folder.charts == old(folder.charts)[result.value.plotPath :=
                   Render(StyleOf(reportType), ApplyCutoff(old(data.rows), year, month))]
              && data.predicted ==
                   if year.Some? && month.Some? then old(data.predicted) else Some(PredictColumn(model, data.rows))
    ensures result.Err? ==> folder.charts == old(folder.charts) && data.predicted == old(data.predicted)
    ensures folder.workbooks == old(folder.workbooks)
    ensures data.Valid() && data.rows == old(data.rows)
  {
    var frame := data;
    if year.Some? && month.Some? {
      frame := new SalesFrame(Filter(data.rows, year.value, month.value));
    }
    if frame.rows == [] {
      return Err(NoSamples);
    }
    frame.AssignPredictions(model);
    var report := frame.Projection();
    var style := StyleOf(reportType);
    var plotPath := Join(ReportsDirectory, FileName(style));
    folder.SaveChart(plotPath, Render(style, frame.rows));
    result := Ok(Generated(report, plotPath));
  }

  /** write_predicted_sales: predictions for the whole frame, written to the
      workbook named by the time stamp. The frame keeps the new column. An
      empty frame makes predict raise before anything is written. */
  method WritePredictedSales(data: SalesFrame, model: Model, stamp: string, folder: ReportsFolder)
    returns (result: Result<string>)
    requires data.Valid()
    modifies data, folder
    ensures result.Err? <==> old(data.rows) == []
    ensures data.Valid() && data.rows == old(data.rows)
    ensures result.Err? ==>
              data.predicted == old(data.predicted) && folder.workbooks == old(folder.workbooks)
    ensures result.Ok? ==>
              && data.predicted == Some(PredictColumn(model, data.rows))
              && result.value == ExportPath(stamp)
              && folder.workbooks == old(folder.workbooks)[result.value :=
                   if result.value in old(folder.workbooks)
                   then Appended(old(folder.workbooks)[result.value], ReportOf(model, data.rows))
                   else NewSheet(ReportOf(model, data.rows))]
    ensures folder.charts == old(folder.charts)
    ensures old(folder.Valid()) ==> folder.Valid()
  {
    if data.rows == [] {
      return Err(NoSamples);
    }
    data.AssignPredictions(model);
    var path := Join(ReportsDirectory, ExportPrefix + stamp + ExportSuffix);
    folder.WriteSheet(path, data.Projection());
    result := Ok(path);
  }

  /** The query arguments of /generate_report, absent when not in the URL. */
  datatype ReportQuery = ReportQuery(year: Option<int>, month: Option<int>, reportType: Option<string>)

  /** What /generate_report renders: the report table, the plot path and the
      endpoint the page links the chart through. */
  datatype ReportPage = ReportPage(report: seq<ReportRow>, plotPath: string, graphEndpoint: string)

  /** The process-wide state built at start-up: the fitted model, the sales
      table with its feature column, and the reports directory. The table is
      never empty, since fitting on an empty table raises at start-up. */
  class Server {
    const model: Model
    const df: SalesFrame
    const folder: ReportsFolder

    ghost predicate Valid()
      reads this, df
    {
      df.Valid() && |df.rows| > 0
    }

    /** initialize_model, with the loaded table and the fitted coefficients given,
        over whatever the reports directory already holds. */
    constructor (table: seq<Record>, fitted: Model, reports: ReportsFolder)
      requires |table| > 0
      ensures Valid() && fresh(df) && folder == reports
      ensures model == fitted && df.rows == table && df.predicted == None
    {
      model := fitted;
      df := new SalesFrame(table);
      folder := reports;
    }

    /** /generate_report: defaults year 2024, month 1, type 'bar'. Both bounds are
        always passed, so the shared table is filtered into a copy and left as it was,
        and the linked endpoint serves the chart just drawn. A cutoff that keeps no
        row fails the request and draws nothing. */
    method GenerateReportRoute(query: ReportQuery) returns (result: Result<ReportPage>)
      requires Valid()
      modifies df, folder
      ensures Valid()
      ensures df.rows == old(df.rows) && df.predicted == old(df.predicted)
      ensures var year, month := OrDefault(query.year, DefaultYear), OrDefault(query.month, DefaultMonth);
              var reportType := OrDefault(query.reportType, DefaultType);
              && (result.Err? <==> Filter(df.rows, year, month) == [])
              && (result.Err? ==> folder.charts == old(folder.charts))
              && (result.Ok? ==>
                   && result.value.report == ReportOf(model, Filter(df.rows, year, month))
                   && result.value.plotPath == ChartPath(reportType)
                   && result.value.graphEndpoint == GraphEndpoint(reportType)
                   && folder.charts == old(folder.charts)[result.value.plotPath :=
                        Render(StyleOf(reportType), Filter(df.rows, year, month))]
                   && folder.Serve(result.value.graphEndpoint) ==
                        Some(Render(StyleOf(reportType), Filter(df.rows, year, month))))
      ensures folder.workbooks == old(folder.workbooks)
    {
      var year := OrDefault(query.year, DefaultYear);
      var month := OrDefault(query.month, DefaultMonth);
      var reportType := OrDefault(query.reportType, DefaultType);
      var generated := GenerateReport(df, model, reportType, Some(year), Some(month), folder);
      if generated.Err? {
        return Err(generated.failure);
      }
      var endpoint;
      if reportType == "bar" {
        endpoint := "generated_bar_graph";
      } else if reportType == "dotted" {
        endpoint := "generated_dotted_graph";
      } else {
        endpoint := "generated_combined_graph";
      }
      EndpointServesChart(reportType);
      result := Ok(ReportPage(generated.value.report, generated.value.plotPath, endpoint));
    }

    /** /write_predicted_sales: export the whole table and send the workbook back.
        The download holds any rows exported earlier in the same second, then
        this export's rows. */
    method WritePredictedSalesRoute(stamp: string) returns (download: seq<SheetRow>)
      requires Valid()
      modifies df, folder
      ensures Valid()
      ensures df.rows == old(df.rows) && df.predicted == Some(PredictColumn(model, df.rows))
      ensures download ==
              if ExportPath(stamp) in old(folder.workbooks)
              then Appended(old(folder.workbooks)[ExportPath(stamp)], ReportOf(model, df.rows))
              else NewSheet(ReportOf(model, df.rows))
      ensures folder.workbooks == old(folder.workbooks)[ExportPath(stamp) := download]
      ensures old(folder.Valid()) ==> folder.Valid() && download[0] == Header
      ensures RowsOf(download) ==
              (if ExportPath(stamp) in old(folder.workbooks) then RowsOf(old(folder.workbooks)[ExportPath(stamp)]) else [])
              + ReportOf(model, df.rows)
      ensures folder.charts == old(folder.charts)
    {
      var written := WritePredictedSales(df, model, stamp, folder);
      var path := written.value;
      download := folder.workbooks[path];
      if path in old(folder.workbooks) {
        AppendReadsBack(old(folder.workbooks)[path], ReportOf(model, df.rows));
      } else {
        NewSheetContents(ReportOf(model, df.rows));
      }
    }

    /** Two exports stamped with the same second, into a name not yet used, leave
        one workbook: a single header and both exports' rows. */
    method ExportTwiceInOneSecond(stamp: string) returns (download: seq<SheetRow>)
      requires Valid() && ExportPath(stamp) !in folder.workbooks
      modifies df, folder
      ensures Valid() && df.rows == old(df.rows) && df.predicted == Some(PredictColumn(model, df.rows))
      ensures download == NewSheet(ReportOf(model, df.rows) + ReportOf(model, df.rows))
      ensures folder.workbooks == old(folder.workbooks)[ExportPath(stamp) := download]
      ensures folder.charts == old(folder.charts)
    {
      var first := WritePredictedSalesRoute(stamp);
      download := WritePredictedSalesRoute(stamp);
      ExportTwice(ReportOf(model, df.rows), ReportOf(model, df.rows));
    }
  }
}

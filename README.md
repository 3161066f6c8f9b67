# Sales report bookkeeping, modelled in Dafny

This project models the bookkeeping of a small Flask application. The
application fits a one-feature linear regression to monthly sales, then
serves predictions, chart reports and spreadsheet exports. The model covers
the following, in the application's own terms:

- the derived feature `Months_Since_Start = Year * 12 + Month`, used to train
  the model and by the `/predict` route;
- `generate_report`:
  - the `(year, month)` cutoff filter;
  - the `Predicted Sales` column assigned into the frame;
  - the projection to Product, Year, Month, Predicted Sales and Sales;
  - the choice of chart file by `report_type`, and the x tick labels
    `"{}-{:02d}"`;
- the `/generate_report` route: its defaults, its choice of `graph_endpoint`,
  and the three fixed chart endpoints;
- `write_predicted_sales`: the timestamped workbook name and its two branches.
  The workbook is created with a header, or the new rows are appended below
  the last row in use, without a header.

The fitted regression is a pair of reals `(slope, intercept)`. Predictions are
`slope * x + intercept` over the reals.

Files (one module each):

- `sales.dfy` (`Sales`): records, the feature, the model, `Predict` and the
  `/predict` route.
- `report.dfy` (`Report`): the cutoff filter, its reference filter on the
  feature, the prediction column and the report rows.
- `format.dfy` (`Format`): Python's `str(int)`, `"{:02d}"`, the tick label and
  a reader for it.
- `charts.dfy` (`Charts`): the chart layouts, file names, paths, endpoints and
  route defaults.
- `export.dfy` (`Export`): the sheet rows, the create and append branches, and
  the export file name.
- `app.dfy` (`App`): the stateful part.
  - `SalesFrame` is the DataFrame. Its `Predicted Sales` column is an optional
    field that the methods assign.
  - `ReportsFolder` is the `reports/` directory. Charts and workbooks are maps
    from path to content.
  - `GenerateReport` and `WritePredictedSales` model the two functions.
  - `Server` holds the process-wide `model`, `df` and reports directory, and
    carries the routes as methods.

Behaviour of the code that the model keeps on purpose:

- A request without `type` gets the default `'bar'` (app.py:142), so it draws
  a bar chart, not the combined one. Only an unrecognised `type` that is given
  falls through to the combined chart.
- `generate_report` filters only when both bounds are given. It then assigns
  `Predicted Sales` into a filtered copy. Without both bounds it assigns the
  column into the frame it was passed. The route always passes both bounds, so
  `/generate_report` leaves the shared table as it was
  (`App.Server.GenerateReportRoute`).
- `write_predicted_sales` assigns the column into the shared table itself, so
  after an export the table keeps a `Predicted Sales` column
  (`App.WritePredictedSales`).
- The export file name has one-second resolution. Two exports in the same
  second go into one workbook: one header, then both row sets
  (`Export.ExportTwice`, `App.Server.ExportTwiceInOneSecond`).
- `model.predict` raises on a frame with no rows (app.py:38, app.py:106). A
  cutoff before the first month of the table therefore fails
  `/generate_report` before any column is assigned or any chart is saved
  (`App.GenerateReport`, `App.Server.GenerateReportRoute`). The fit raises in
  the same way on an empty table, so the server only starts with a non-empty
  one (`App.Server.constructor`).
- openpyxl reports `max_row` as 1 for an empty sheet. Appending to an empty
  existing sheet therefore leaves row 0 empty (`Export.Padding`). This cannot
  happen to a workbook the application wrote itself, because every such
  workbook starts with its header (`App.ReportsFolder.Valid`).

## Model

| member | source | states |
|---|---|---|
| `Sales.FeatureRoundTrip` | app.py:20 | for months in 1..12, year and month can be read back from `Year*12 + Month` |
| `Sales.FeatureInjective` | app.py:20 | for months in 1..12, two periods get the same feature exactly when they are the same period |
| `Sales.PredictPeriod` | app.py:132-135 | the single prediction of `/predict` is the model applied to the same feature `year*12 + month` used for training |
| `Sales.PredictAffine` | app.py:38 | prediction is affine in the feature: `predict(x2) - predict(x1) = slope*(x2 - x1)` |
| `Sales.PredictNextMonth` | app.py:134-135 | one month later moves the prediction by exactly `slope`, one year later by `12*slope` |
| `Report.Filter` | app.py:36 | the filtered table is no longer than the input, and every row in it comes from the input and satisfies `Year < Y or (Year == Y and Month <= M)` |
| `Report.FilterCount` | app.py:36 | each row occurs in the filtered table as often as in the input when the mask selects it, and never otherwise |
| `Report.FilterMembership` | app.py:36 | a row is in the filtered table if and only if it is in the input and the mask selects it |
| `Report.FilterIsSubsequence` | app.py:36 | the filtered table is a subsequence of the input, so the original order is kept |
| `Report.FilterConcat` | app.py:36 | filtering works row by row: filtering `a + b` gives the filtered `a` followed by the filtered `b` |
| `Report.ApplyCutoff` | app.py:35-36 | with both bounds the result is the mask filter of the input, with a bound missing it is the input itself; either way it is a subsequence of the input in which every row occurs as often as in the input when selected and not at all otherwise |
| `Report.CutoffIsFeatureBound` | app.py:20-36 | for months in 1..12, the lexicographic cutoff on one row is the same test as `Months_Since_Start <= Y*12 + M` |
| `Report.FilterIsFeatureBound` | app.py:20-36 | for months in 1..12, the cutoff filter equals the filter `Months_Since_Start <= Y*12 + M` on the whole table |
| `Report.ReportMatchesRecords` | app.py:38-40 | the report has one row per record, in order; dropping Predicted Sales gives the record back, and Predicted Sales is the `/predict` value for that row's year and month |
| `Report.ReportConcat` | app.py:38-40 | the report of `a + b` is the report of `a` followed by that of `b` |
| `Format.IntToStringRoundTrip` | app.py:53 | the year text of a tick label is an integer text that reads back to the year |
| `Format.ZeroPad2Width` | app.py:53 | `"{:02d}"` gives at least two characters; a month in 0..99 gives exactly two digits with the month's value, and a negative number is printed as `str` prints it |
| `Format.TickLabelRoundTrip` | app.py:53 | reading a tick label `"{}-{:02d}"` back gives its year and month (month in 0..99) |
| `Format.TickLabelInjective` | app.py:53 | two periods with months in 0..99 get the same tick label exactly when they are the same period |
| `Charts.ChartPathTable` | app.py:46-98 | `'bar'` is saved to `reports/bar_graph.png`, `'dotted'` to `reports/dotted_graph.png`, and every other string to `reports/combined_graph.png` |
| `Charts.ChartPathsDistinct` | app.py:46-98 | two report types share a chart file exactly when they select the same layout |
| `Charts.TicksMatchPositions` | app.py:48-53 | on a chart whose months are in 1..12, two rows share an x position exactly when they share a tick label, and exactly when they are in the same period |
| `Charts.EndpointServesChart` | app.py:146-165 | for every report type, the endpoint the route links to sends the file that `generate_report` just wrote |
| `Charts.MissingTypeIsBar` | app.py:140-151 | a request without `type` is drawn as a bar chart into `reports/bar_graph.png` and linked through `generated_bar_graph` |
| `Export.Padding` | app.py:118 | the rows left empty before `max_row`: exactly enough to reach `max_row`, all of them empty |
| `Export.NewSheetContents` | app.py:119-121 | a created workbook has one header, first, and holds exactly the exported rows |
| `Export.AppendKeepsExistingRows` | app.py:115-118 | appending keeps every existing row in place; a non-empty sheet gets the new rows right after its last row |
| `Export.AppendAddsNoHeader` | app.py:117-118 | appending writes no header row after the existing rows |
| `Export.AppendReadsBack` | app.py:117-118 | after appending, the sheet holds its old report rows followed by the new ones |
| `Export.ExportTwice` | app.py:111-121 | an export appended to a just-created workbook gives the same workbook as one export of both row sets: a single header |
| `Export.ExportPathInjective` | app.py:111-112 | two exports share a file exactly when their time stamps are equal |
| `Export.ExportPathIsNoChartPath` | app.py:98-112 | no export path is ever a chart path |
| `App.SalesFrame.AssignPredictions` | app.py:38-39 | on a frame with at least one row (predict refuses zero rows), the frame gains (or replaces) the Predicted Sales column, `slope*Months_Since_Start + intercept` per row; its rows are unchanged |
| `App.ReportsFolder.constructor` | app.py:155-165 | in an empty reports directory no chart endpoint has anything to send |
| `App.ReportsFolder.SaveChart` | app.py:98-100 | saving a chart replaces exactly the file at its path |
| `App.ReportsFolder.WriteSheet` | app.py:114-121 | an existing workbook at the path gets the rows appended, otherwise a header-first workbook is created; no other file changes, and every workbook still starts with its header |
| `App.GenerateReport` | app.py:34-102 | fails exactly when the cutoff keeps no row, and then assigns and draws nothing; otherwise the report is the prediction and projection of the cutoff rows, exactly one chart is written, at `ChartPath(report_type)`, showing those rows, and the passed frame gains the column only when a bound is missing |
| `App.WritePredictedSales` | app.py:105-123 | fails exactly on an empty frame, and then changes nothing; otherwise the frame gains the Predicted Sales column and the workbook at `reports/predicted_sales_report_<stamp>.xlsx` is created or appended with the report of the whole table; nothing else changes |
| `App.Server.constructor` | app.py:15-31 | the start-up state, for a non-empty table (the fit raises on an empty one): the model, the loaded table without a Predicted Sales column, and the reports directory as found |
| `App.Server.GenerateReportRoute` | app.py:138-153 | with defaults 2024, 1 and `'bar'`: the request fails, drawing nothing, exactly when the cutoff keeps no row; otherwise the page shows the report of the cutoff rows and the linked endpoint serves the chart just drawn; the shared table is left unchanged either way |
| `App.Server.WritePredictedSalesRoute` | app.py:167-170 | the downloaded workbook holds any rows already exported in the same second, then this export's rows |
| `App.Server.ExportTwiceInOneSecond` | app.py:111-121 | two exports with the same time stamp into an unused name leave one workbook: one header, then both row sets; the table keeps its rows and gains the Predicted Sales column, and no chart changes |

## Left out

- The least-squares fit (`LinearRegression().fit`, app.py:27-28) is not modelled. The model's coefficients are parameters.
- Predictions are exact reals. The float64 rounding of numpy and scikit-learn is not modelled.
- Reading `uploads/sales.csv` (app.py:11-17) is not modelled. The table is a parameter of `App.Server.constructor`.
- The `Months_Since_Start` column is not stored. It is recomputed from Year and Month wherever it is used. No code path changes those two columns, so the values agree.
- Drawing with matplotlib (figure size, bars, lines, colours, legend, grid, layout, resolution) is not modelled. A chart keeps only its layout, its x positions and its tick labels.
- The Flask shell is not modelled: templates, `to_html`, `send_file` streaming and MIME types.
- The `int()` conversion of query and form strings is not modelled, so neither is the error a non-integer value raises. Route arguments arrive as optional integers and an optional string.
- `/`, `/metrics` and `/generated_metrics_graph` are not modelled. They compute floating-point statistics and draw.
- The clock is not modelled: `datetime.now()` and `strftime("%Y%m%d_%H%M%S")`. The stamp text is a parameter.
- `os.makedirs` is not modelled. The reports directory is assumed to exist.
- Opening an existing file at the export path that is not a workbook, or has no `Sheet1`, is not modelled. In the code that raises. The model's directory holds only workbooks at export paths.
- Concurrent requests are not modelled, so neither are the races on the fixed chart paths.
- `Format.TickLabelRoundTrip` and `Format.TickLabelInjective` are stated only for months in 0..99. Outside that range the month text is not two digits wide.

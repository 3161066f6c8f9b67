/** The spreadsheet export of write_predicted_sales: the rows of the sheet, the
    create and append branches, and the timestamped file name. */
module Export {
  import opened Report
  import opened Charts

  /** A row of Sheet1: the column header, an empty row, or one report row. */
  datatype SheetRow = Header | Blank | Data(row: ReportRow)

  function DataRows(rows: seq<ReportRow>): seq<SheetRow>
  {
    seq(|rows|, i requires 0 <= i < |rows| => Data(rows[i]))
  }

  /** to_excel(index=False) on a new file: the header row, then the rows. */
  function NewSheet(rows: seq<ReportRow>): seq<SheetRow>
  {
    [Header] + DataRows(rows)
  }

  /** openpyxl's max_row: the number of rows in use, but 1 for an empty sheet. */
  function MaxRow(sheet: seq<SheetRow>): nat
  {
    if |sheet| == 0 then 1 else |sheet|
  }

  /** The rows left empty between the last row in use and row index max_row. */
  function Padding(sheet: seq<SheetRow>): (pad: seq<SheetRow>)
    ensures |sheet| + |pad| == MaxRow(sheet)
    ensures forall i :: 0 <= i < |pad| ==> pad[i] == Blank
  {
    if sheet == [] then [Blank] else []
  }

  /** to_excel(header=False, startrow=max_row) into an existing sheet: the rows are
      written from row index max_row on. */
  function Appended(sheet: seq<SheetRow>, rows: seq<ReportRow>): seq<SheetRow>
  {
    sheet + Padding(sheet) + DataRows(rows)
  }

  /** The report rows a sheet holds, in order (header and empty rows skipped). */
  function RowsOf(sheet: seq<SheetRow>): seq<ReportRow>
  {
    if sheet == [] then []
    else (if sheet[0].Data? then [sheet[0].row] else []) + RowsOf(sheet[1..])
  }

  lemma {:induction false} RowsOfConcat(a: seq<SheetRow>, b: seq<SheetRow>)
    ensures RowsOf(a + b) == RowsOf(a) + RowsOf(b)
  {
    if a == [] {
      assert a + b == b;
    } else {
      assert (a + b)[0] == a[0] && (a + b)[1..] == a[1..] + b;
      RowsOfConcat(a[1..], b);
    }
  }

  /** Reading back the data rows gives the report rows written. */
  lemma {:induction false} RowsOfDataRows(rows: seq<ReportRow>)
    ensures RowsOf(DataRows(rows)) == rows
    ensures Header !in DataRows(rows)
  {
    if rows != [] {
      assert DataRows(rows) == [Data(rows[0])] + DataRows(rows[1..]);
      RowsOfDataRows(rows[1..]);
      RowsOfConcat([Data(rows[0])], DataRows(rows[1..]));
    }
  }

  /** A created file has one header, first, and holds exactly the rows written. */
  lemma NewSheetContents(rows: seq<ReportRow>)
    ensures NewSheet(rows)[0] == Header && Header !in NewSheet(rows)[1..]
    ensures RowsOf(NewSheet(rows)) == rows
  {
    RowsOfDataRows(rows);
    assert NewSheet(rows)[1..] == DataRows(rows);
    RowsOfConcat([Header], DataRows(rows));
  }

  /** Appending leaves every existing row where it was; a non-empty sheet gets
      the new rows right after its last row. */
  lemma AppendKeepsExistingRows(sheet: seq<SheetRow>, rows: seq<ReportRow>)
    ensures Appended(sheet, rows)[..|sheet|] == sheet
    ensures sheet != [] ==> Appended(sheet, rows) == sheet + DataRows(rows)
  {
  }

  /** Appending writes no header row: everything after the old rows is empty or data. */
  lemma AppendAddsNoHeader(sheet: seq<SheetRow>, rows: seq<ReportRow>)
    ensures forall i :: |sheet| <= i < |Appended(sheet, rows)| ==> Appended(sheet, rows)[i] != Header
  {
  }

  /** After appending, the sheet holds its old report rows followed by the new ones. */
  lemma AppendReadsBack(sheet: seq<SheetRow>, rows: seq<ReportRow>)
    ensures RowsOf(Appended(sheet, rows)) == RowsOf(sheet) + rows
  {
    var pad := Padding(sheet);
    var tail := pad + DataRows(rows);
    RowsOfDataRows(rows);
    assert RowsOf(pad) == [] by {
      if pad != [] {
        assert RowsOf(pad) == [] + RowsOf([]);
      }
    }
    assert Appended(sheet, rows) == sheet + tail;
    RowsOfConcat(pad, DataRows(rows));
    RowsOfConcat(sheet, tail);
  }

  /** Two exports into the same file: one header, then both row sets in order. */
  lemma ExportTwice(first: seq<ReportRow>, second: seq<ReportRow>)
    ensures Appended(NewSheet(first), second) == NewSheet(first + second)
    ensures RowsOf(Appended(NewSheet(first), second)) == first + second
  {
    AppendKeepsExistingRows(NewSheet(first), second);
    AppendReadsBack(NewSheet(first), second);
    NewSheetContents(first);
    NewSheetContents(first + second);
    assert DataRows(first) + DataRows(second) == DataRows(first + second);
  }

  const ExportPrefix: string := "predicted_sales_report_"
  const ExportSuffix: string := ".xlsx"

  /** reports/predicted_sales_report_<stamp>.xlsx, stamp being the "%Y%m%d_%H%M%S"
      text of the clock. */
  function ExportPath(stamp: string): string
  {
    Join(ReportsDirectory, ExportPrefix + stamp + ExportSuffix)
  }

  /** Exports share a file exactly when their time stamps are equal. */
  lemma ExportPathInjective(s1: string, s2: string)
    ensures ExportPath(s1) == ExportPath(s2) <==> s1 == s2
  {
    if ExportPath(s1) == ExportPath(s2) {
      var n := |ReportsDirectory + "/" + ExportPrefix|;
      assert ExportPath(s1)[n..|ExportPath(s1)| - 5] == s1;
      assert ExportPath(s2)[n..|ExportPath(s2)| - 5] == s2;
    }
  }

  /** No export ever lands on a chart file. */
  lemma ExportPathIsNoChartPath(stamp: string, reportType: string)
    ensures ExportPath(stamp) != ChartPath(reportType)
  {
  }
}

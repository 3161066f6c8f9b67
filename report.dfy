/** The tabular half of generate_report: the (year, month) cutoff filter, the
    Predicted Sales column and the projection to the report's five columns. */
module Report {
  import opened Sales

  /** The boolean mask of the cutoff: Year < year, or Year == year and Month <= month. */
  predicate NotAfterCutoff(r: Record, year: int, month: int)
  {
    r.year < year || (r.year == year && r.month <= month)
  }

  /** The rows the mask selects, in table order. */
  function Filter(data: seq<Record>, year: int, month: int): (kept: seq<Record>)
    ensures |kept| <= |data|
    ensures forall r :: r in kept ==> r in data && NotAfterCutoff(r, year, month)
  {
    if data == [] then []
    else if NotAfterCutoff(data[0], year, month) then [data[0]] + Filter(data[1..], year, month)
    else Filter(data[1..], year, month)
  }

  /** sub is obtained from s by deleting elements, keeping the order of the rest. */
  ghost predicate SubsequenceOf<T>(sub: seq<T>, s: seq<T>)
    decreases |s|
  {
    if sub == [] then true
    else if s == [] then false
    else (sub[0] == s[0] && SubsequenceOf(sub[1..], s[1..])) || SubsequenceOf(sub, s[1..])
  }

  /** Every row occurs in the filtered table exactly as often as in the input when
      the mask selects it, and not at all otherwise. */
  lemma {:induction false} FilterCount(data: seq<Record>, year: int, month: int, r: Record)
    ensures multiset(Filter(data, year, month))[r]
            == if NotAfterCutoff(r, year, month) then multiset(data)[r] else 0
  {
    if data != [] {
      FilterCount(data[1..], year, month, r);
      assert data == [data[0]] + data[1..];
    }
  }

  /** The filtered table holds exactly the rows the mask selects. */
  lemma FilterMembership(data: seq<Record>, year: int, month: int, r: Record)
    ensures r in Filter(data, year, month) <==> r in data && NotAfterCutoff(r, year, month)
  {
    FilterCount(data, year, month, r);
  }

  /** Filtering only deletes rows; the survivors keep their order. */
  lemma {:induction false} FilterIsSubsequence(data: seq<Record>, year: int, month: int)
    ensures SubsequenceOf(Filter(data, year, month), data)
  {
    if data != [] {
      FilterIsSubsequence(data[1..], year, month);
      var kept := Filter(data, year, month);
      if NotAfterCutoff(data[0], year, month) {
        assert kept[0] == data[0] && kept[1..] == Filter(data[1..], year, month);
      } else if kept != [] {
        assert kept == Filter(data[1..], year, month);
      }
    }
  }

  /** The filter works row by row: filtering a concatenation filters each part. */
  lemma {:induction false} FilterConcat(a: seq<Record>, b: seq<Record>, year: int, month: int)
    ensures Filter(a + b, year, month) == Filter(a, year, month) + Filter(b, year, month)
  {
    if a == [] {
      assert a + b == b;
    } else {
      assert (a + b)[0] == a[0];
      assert (a + b)[1..] == a[1..] + b;
      FilterConcat(a[1..], b, year, month);
    }
  }

  /** The cutoff of generate_report: applied only when both bounds are given,
      otherwise the table is used unchanged. Each row keeps its multiplicity
      and its place in the order. */
  function ApplyCutoff(data: seq<Record>, year: Option<int>, month: Option<int>): (kept: seq<Record>)
    ensures SubsequenceOf(kept, data)
    ensures forall r :: r in kept <==>
              r in data && (year.None? || month.None? || NotAfterCutoff(r, year.value, month.value))
    ensures forall r :: multiset(kept)[r] ==
              if year.None? || month.None? || NotAfterCutoff(r, year.value, month.value)
              then multiset(data)[r] else 0
    ensures year.None? || month.None? ==> kept == data
    ensures year.Some? && month.Some? ==> kept == Filter(data, year.value, month.value)
  {
    if year.Some? && month.Some? then
      FilterIsSubsequence(data, year.value, month.value);
      assert forall r :: multiset(Filter(data, year.value, month.value))[r] ==
                         if NotAfterCutoff(r, year.value, month.value) then multiset(data)[r] else 0 by {
        forall r: Record {
          FilterCount(data, year.value, month.value, r);
        }
      }
      Filter(data, year.value, month.value)
    else
      SubsequenceReflexive(data);
      data
  }

  lemma {:induction false} SubsequenceReflexive<T>(s: seq<T>)
    ensures SubsequenceOf(s, s)
  {
    if s != [] {
      SubsequenceReflexive(s[1..]);
    }
  }

  /** Every month of the table lies in 1..12. */
  predicate MonthsInRange(data: seq<Record>)
  {
    forall i :: 0 <= i < |data| ==> 1 <= data[i].month <= 12
  }

  /** For valid months the lexicographic cutoff is a bound on the feature. */
  lemma CutoffIsFeatureBound(r: Record, year: int, month: int)
    requires 1 <= r.month <= 12 && 1 <= month <= 12
    ensures NotAfterCutoff(r, year, month) <==> Feature(r) <= MonthsSinceStart(year, month)
  {
  }

  /** An independent filter on the feature column: Months_Since_Start <= limit. */
  function FilterByFeature(data: seq<Record>, limit: int): seq<Record>
  {
    if data == [] then []
    else if Feature(data[0]) <= limit then [data[0]] + FilterByFeature(data[1..], limit)
    else FilterByFeature(data[1..], limit)
  }

  /** With months in 1..12 the cutoff filter keeps exactly the rows whose feature
      is at most that of the cutoff period. */
  lemma {:induction false} FilterIsFeatureBound(data: seq<Record>, year: int, month: int)
    requires MonthsInRange(data) && 1 <= month <= 12
    ensures Filter(data, year, month) == FilterByFeature(data, MonthsSinceStart(year, month))
  {
    if data != [] {
      CutoffIsFeatureBound(data[0], year, month);
      assert MonthsInRange(data[1..]) by {
        forall i | 0 <= i < |data[1..]| ensures 1 <= data[1..][i].month <= 12 {
          assert data[1..][i] == data[i + 1];
        }
      }
      FilterIsFeatureBound(data[1..], year, month);
    }
  }

  /** One row of the report: Product, Year, Month, Predicted Sales, Sales. */
  datatype ReportRow = ReportRow(product: string, year: int, month: int, predictedSales: real, sales: real)

  /** model.predict over the Months_Since_Start column. */
  function PredictColumn(model: Model, rows: seq<Record>): seq<real>
  {
    seq(|rows|, i requires 0 <= i < |rows| => Predict(model, Feature(rows[i])))
  }

  /** The projection data[['Product', 'Year', 'Month', 'Predicted Sales', 'Sales']]. */
  function Project(rows: seq<Record>, predicted: seq<real>): seq<ReportRow>
    requires |predicted| == |rows|
  {
    seq(|rows|, i requires 0 <= i < |rows| =>
      ReportRow(rows[i].product, rows[i].year, rows[i].month, predicted[i], rows[i].sales))
  }

  /** The report for a table: the column assignment followed by the projection. */
  function ReportOf(model: Model, rows: seq<Record>): seq<ReportRow>
  {
    Project(rows, PredictColumn(model, rows))
  }

  /** The report row with its Predicted Sales dropped. */
  function Actual(row: ReportRow): Record
  {
    Record(row.product, row.year, row.month, row.sales)
  }

  /** The report has one row per record, in order; dropping Predicted Sales
      gives the records back, and each prediction is the one the /predict route
      gives for that row's year and month. */
  lemma ReportMatchesRecords(model: Model, rows: seq<Record>)
    ensures |ReportOf(model, rows)| == |rows|
    ensures forall i :: 0 <= i < |rows| ==>
              Actual(ReportOf(model, rows)[i]) == rows[i] &&
              ReportOf(model, rows)[i].predictedSales == PredictPeriod(model, rows[i].year, rows[i].month)
  {
  }

  /** The report is built row by row. */
  lemma ReportConcat(model: Model, a: seq<Record>, b: seq<Record>)
    ensures ReportOf(model, a + b) == ReportOf(model, a) + ReportOf(model, b)
  {
  }
}

/** The report run: validate the filters, fetch the rows, then build the
    columns, the data with its totals row, the chart and the ranking. */
module Report {
  import opened Rows
  import opened Seqs
  import Filters
  import Columns
  import Totals
  import Chart
  import Ranking

  datatype Result<T> = Success(value: T) | Failure(error: string)

  /** The six values the report hands back to the framework. */
  datatype ReportOutput = ReportOutput(
    columns: seq<Columns.Column>,
    data: seq<ReportRow>,
    message: seq<Ranking.RankEntry>,
    chart: Chart.ChartSpec,
    summary: seq<string>,
    skipTotalRow: int)

  /** The report data for query rows `rows`: the rows unchanged and in
      order, then one totals row carrying each column's total. */
  ghost predicate Tabulated(data: seq<ReportRow>, rows: seq<QueryRow>) {
    && |data| == |rows| + 1
    && (forall i :: 0 <= i < |rows| ==> data[i] == Entry(rows[i]))
    && data[|rows|].Totals?
    && data[|rows|].sums.Keys == Totals.AllKeys
    && (forall k :: Value(data[|rows|], k) == Totals.TotalOf(rows, k))
  }

  /** The chart plots exactly the query rows: every date once, ascending,
      and one series per buyer in first-seen order, aligned to the dates. */
  ghost predicate Plots(chart: Chart.ChartSpec, rows: seq<QueryRow>) {
    && StrictlyIncreasing(chart.labels)
    && (forall d :: d in chart.labels <==> d in Chart.DatesOf(rows))
    && |chart.datasets| == |Dedup(Chart.BuyerColumn(rows))|
    && (forall k :: 0 <= k < |chart.datasets| ==>
          chart.datasets[k].name == Dedup(Chart.BuyerColumn(rows))[k]
          && |chart.datasets[k].values| == |chart.labels|)
    && (forall k, j :: 0 <= k < |chart.datasets| && 0 <= j < |chart.labels| ==>
          chart.datasets[k].values[j] == Chart.DoneDocAt(rows, chart.datasets[k].name, chart.labels[j]))
    && chart.title == Chart.Title && chart.kind == Chart.Kind && chart.colors == Chart.Palette
  }

  /** The ranking of the query rows as the report computes it: every named
      buyer once, in first-seen order, each with a total of 0. */
  ghost predicate Ranks(message: seq<Ranking.RankEntry>, front: seq<ReportRow>) {
    && |message| == |Dedup(Ranking.RankedBuyers(front))|
    && (forall i :: 0 <= i < |message| ==>
          message[i] == Ranking.RankEntry(i + 1, Dedup(Ranking.RankedBuyers(front))[i], 0))
  }

  /** What a successful run returns for the query rows `rows`. */
  ghost predicate Presents(out: ReportOutput, rows: seq<QueryRow>, scrub: string -> string) {
    && out.columns == Columns.GetColumns(scrub)
    && Tabulated(out.data, rows)
    && Plots(out.chart, rows)
    && Ranks(out.message, out.data[..|rows|])
    && out.summary == [] && out.skipTotalRow == 0
  }

  /** A run of the report. The filters are validated before the query is
      issued, so a rejected range produces no data at all. `query` stands
      for the database's grouped rows between the two dates; `scrub` for
      the framework's label-to-fieldname function. */
  method Run(f: Filters.Filters, query: (int, int) -> seq<QueryRow>, scrub: string -> string)
      returns (r: Result<ReportOutput>)
    ensures r.Failure? <==> f.dateUntil < f.dateFrom
    ensures r.Failure? ==> r.error == Filters.RangeError
    ensures r.Success? ==> Presents(r.value, query(f.dateFrom, f.dateUntil), scrub)
  {
    var check := Filters.Validate(f);
    if check.Fail? {
      return Failure(check.message);
    }
    var columns := Columns.GetColumns(scrub);
    var rows := query(f.dateFrom, f.dateUntil);
    var data := GetData(rows);
    var chart := GetChart(rows, data);
    var message := GetMessage(rows, data);
    r := Success(ReportOutput(columns, data, message, chart, [], 0));
  }

  /** The data step: the query rows followed by their totals row. */
  method GetData(rows: seq<QueryRow>) returns (data: seq<ReportRow>)
    ensures Tabulated(data, rows)
  {
    data := Totals.BuildData(rows);
    forall k
      ensures Value(data[|rows|], k) == Totals.TotalOf(rows, k)
    {
      if IsPercent(k) && |rows| > 0 {
        assert Value(data[|rows|], k) == Totals.RoundHalfEven(Totals.KeySum(rows, k), |rows|);
      }
    }
  }

  /** The chart step: the totals row is not plotted. */
  method GetChart(rows: seq<QueryRow>, data: seq<ReportRow>) returns (chart: Chart.ChartSpec)
    requires Tabulated(data, rows)
    ensures Plots(chart, rows)
  {
    chart := Chart.GetChart(data);
    var front := data[..|rows|];
    assert data == front + [Totals(data[|rows|].sums)];
    Chart.PlottedRowsOfReport(rows, front, data[|rows|].sums);
  }

  /** The message step: the totals row, named "", is not ranked. */
  method GetMessage(rows: seq<QueryRow>, data: seq<ReportRow>) returns (message: seq<Ranking.RankEntry>)
    requires Tabulated(data, rows)
    ensures Ranks(message, data[..|rows|])
  {
    message := Ranking.RankTableAsWritten(data);
    assert !Ranking.Ranked(data[|rows|]);
    Ranking.RankedStep(data, |rows|);
    assert data[..|rows| + 1] == data;
    assert Ranking.RankedBuyers(data) == Ranking.RankedBuyers(data[..|rows|]) + [];
    assert Ranking.RankedBuyers(data) == Ranking.RankedBuyers(data[..|rows|]);
  }

  /** Nothing is dropped from the chart: wherever a buyer has documents
      done on a day, the chart has that buyer's series and that day's
      label, and the series shows exactly that amount there. */
  lemma ChartLosesNothing(chart: Chart.ChartSpec, rows: seq<QueryRow>, b: Option<string>, d: int)
    requires Plots(chart, rows)
    requires Chart.DoneDocAt(rows, b, d) != 0
    ensures exists k, j :: 0 <= k < |chart.datasets| && 0 <= j < |chart.labels|
              && chart.datasets[k].name == b && chart.labels[j] == d
              && chart.datasets[k].values[j] == Chart.DoneDocAt(rows, b, d)
  {
    Chart.DoneDocNeedsRow(rows, b, d);
    var i :| 0 <= i < |rows| && rows[i].buyer == b && rows[i].date == d;
    var buyers := Dedup(Chart.BuyerColumn(rows));
    assert Chart.BuyerColumn(rows)[i] == b;
    var k :| 0 <= k < |buyers| && buyers[k] == b;
    assert d in Chart.DatesOf(rows);
    var j :| 0 <= j < |chart.labels| && chart.labels[j] == d;
    assert chart.datasets[k].name == b;
  }
}

/** The line chart of documents done per buyer and day. */
module Chart {
  import opened Rows
  import opened Seqs

  /** One line of the chart: a buyer (None for a NULL buyer name) and one
      value per label. */
  datatype Dataset = Dataset(name: Option<string>, values: seq<int>)

  datatype ChartSpec = ChartSpec(labels: seq<int>, datasets: seq<Dataset>, title: string, kind: string, colors: seq<string>)

  const Title: string := "Buyer Done Performance"
  const Kind: string := "line"
  const Palette: seq<string> := ["#007bff", "#28a745", "#ffc107", "#dc3545", "#6f42c1"]

  /** The rows the chart reads: every data row whose date cell is not "Total". */
  function PlottedRows(data: seq<ReportRow>): seq<QueryRow> {
    if |data| == 0 then []
    else
      var p := PlottedRows(data[..|data| - 1]);
      var last := data[|data| - 1];
      if Label(last) == TotalLabel then p else p + [last.row]
  }

  /** The buyer of each row, in row order. */
  function BuyerColumn(rows: seq<QueryRow>): (bs: seq<Option<string>>)
    ensures |bs| == |rows|
    ensures forall i :: 0 <= i < |rows| ==> bs[i] == rows[i].buyer
  {
    if |rows| == 0 then [] else BuyerColumn(rows[..|rows| - 1]) + [rows[|rows| - 1].buyer]
  }

  /** The chart's series, one per buyer in the order the buyers first appear. */
  function ChartBuyers(data: seq<ReportRow>): seq<Option<string>> {
    Dedup(BuyerColumn(PlottedRows(data)))
  }

  /** The distinct dates of `rows`. */
  function DatesOf(rows: seq<QueryRow>): (ds: set<int>)
    ensures forall d :: d in ds <==> exists i :: 0 <= i < |rows| && rows[i].date == d
  {
    if |rows| == 0 then {}
    else
      var n := |rows| - 1;
      assert forall i :: 0 <= i < n ==> rows[..n][i] == rows[i];
      DatesOf(rows[..n]) + {rows[n].date}
  }

  /** Documents done by buyer `b` on day `d`: the sum of `done_doc` (NULL
      counting 0) over the rows of that buyer and day. */
  function DoneDocAt(rows: seq<QueryRow>, b: Option<string>, d: int): int {
    if |rows| == 0 then 0
    else
      var q := rows[|rows| - 1];
      DoneDocAt(rows[..|rows| - 1], b, d) + (if q.buyer == b && q.date == d then Cell(q.fields, DoneDoc) else 0)
  }

  /** `date_map.get(d, 0)`. */
  function Lookup(m: map<int, int>, d: int): int {
    if d in m then m[d] else 0
  }

  lemma PlottedRowsStep(data: seq<ReportRow>, i: int)
    requires 0 <= i < |data|
    ensures PlottedRows(data[..i + 1]) ==
              if Label(data[i]) == TotalLabel then PlottedRows(data[..i]) else PlottedRows(data[..i]) + [data[i].row]
  {
    assert data[..i + 1][..i] == data[..i];
  }

  lemma DoneDocStep(rows: seq<QueryRow>, q: QueryRow, b: Option<string>, d: int)
    ensures DoneDocAt(rows + [q], b, d) ==
              DoneDocAt(rows, b, d) + (if q.buyer == b && q.date == d then Cell(q.fields, DoneDoc) else 0)
  {
    assert (rows + [q])[..|rows|] == rows;
  }

  lemma DatesStep(rows: seq<QueryRow>, q: QueryRow)
    ensures DatesOf(rows + [q]) == DatesOf(rows) + {q.date}
  {
    assert (rows + [q])[..|rows|] == rows;
  }

  /** `perBuyer` tabulates the done documents of `rows`: a buyer's entry
      gives the total per day, and a buyer without an entry has none. */
  ghost predicate Tabulates(perBuyer: map<Option<string>, map<int, int>>, rows: seq<QueryRow>) {
    && (forall b, d :: b in perBuyer ==> Lookup(perBuyer[b], d) == DoneDocAt(rows, b, d))
    && (forall b, d :: b !in perBuyer ==> DoneDocAt(rows, b, d) == 0)
  }

  /** `buyer_date_data[buyer][date] += value` for row `q`. */
  function AddDone(perBuyer: map<Option<string>, map<int, int>>, q: QueryRow): map<Option<string>, map<int, int>> {
    var m := if q.buyer in perBuyer then perBuyer[q.buyer] else map[];
    perBuyer[q.buyer := m[q.date := Lookup(m, q.date) + Cell(q.fields, DoneDoc)]]
  }

  /** Adding a row's done documents to the table keeps it exact. */
  lemma AddDoneTabulates(perBuyer: map<Option<string>, map<int, int>>, rows: seq<QueryRow>, q: QueryRow)
    requires Tabulates(perBuyer, rows)
    ensures Tabulates(AddDone(perBuyer, q), rows + [q])
  {
    var t := AddDone(perBuyer, q);
    var m := if q.buyer in perBuyer then perBuyer[q.buyer] else map[];
    forall b, d | b in t
      ensures Lookup(t[b], d) == DoneDocAt(rows + [q], b, d)
    {
      DoneDocStep(rows, q, b, d);
      if b == q.buyer {
        assert Lookup(m, d) == DoneDocAt(rows, b, d);
      } else {
        assert t[b] == perBuyer[b];
        assert Lookup(perBuyer[b], d) == DoneDocAt(rows, b, d);
      }
    }
    forall b, d | b !in t
      ensures DoneDocAt(rows + [q], b, d) == 0
    {
      DoneDocStep(rows, q, b, d);
    }
  }

  /** What the first pass knows after reading `rows`: the buyers in
      first-seen order, a (buyer, date) table of done documents, and the dates. */
  ghost predicate Summarises(buyers: seq<Option<string>>, perBuyer: map<Option<string>, map<int, int>>,
                             dates: seq<int>, rows: seq<QueryRow>)
  {
    && buyers == Dedup(BuyerColumn(rows))
    && (forall b :: b in perBuyer <==> b in buyers)
    && (forall d :: d in dates <==> d in DatesOf(rows))
    && Tabulates(perBuyer, rows)
  }

  /** One step of the first pass for a plotted row `q`: add its done
      documents, note a new buyer, add its date. */
  method AddRow(buyers: seq<Option<string>>, perBuyer: map<Option<string>, map<int, int>>, dates: seq<int>,
                ghost rows: seq<QueryRow>, q: QueryRow)
      returns (buyers': seq<Option<string>>, perBuyer': map<Option<string>, map<int, int>>, dates': seq<int>)
    requires Summarises(buyers, perBuyer, dates, rows)
    ensures Summarises(buyers', perBuyer', dates', rows + [q])
  {
    perBuyer' := AddDone(perBuyer, q);
    buyers' := if q.buyer in buyers then buyers else buyers + [q.buyer];
    dates' := dates + [q.date];
    assert (rows + [q])[..|rows|] == rows;
    assert BuyerColumn(rows + [q]) == BuyerColumn(rows) + [q.buyer];
    DedupSnoc(BuyerColumn(rows), q.buyer);
    DatesStep(rows, q);
    AddDoneTabulates(perBuyer, rows, q);
  }

  /** First pass over the data, as the source's loop: skip the "Total" row,
      add each row's `done_doc` to its (buyer, date) cell, note each new
      buyer in first-seen order and collect the dates. */
  method Accumulate(data: seq<ReportRow>)
      returns (buyers: seq<Option<string>>, perBuyer: map<Option<string>, map<int, int>>, dates: seq<int>)
    ensures Summarises(buyers, perBuyer, dates, PlottedRows(data))
  {
    buyers := [];
    perBuyer := map[];
    dates := [];
    var i := 0;
    while i < |data|
      invariant 0 <= i <= |data|
      invariant Summarises(buyers, perBuyer, dates, PlottedRows(data[..i]))
    {
      PlottedRowsStep(data, i);
      if Label(data[i]) != TotalLabel {
        buyers, perBuyer, dates := AddRow(buyers, perBuyer, dates, PlottedRows(data[..i]), data[i].row);
      }
      i := i + 1;
    }
    assert data[..|data|] == data;
  }

  /** Builds the chart. The labels are the distinct dates of the plotted
      rows in ascending order; there is one dataset per buyer of those rows,
      in first-seen order; a dataset has one value per label, the done
      documents of that buyer on that day, 0 where it has no row. The title,
      type and palette are fixed. */
  method GetChart(data: seq<ReportRow>) returns (chart: ChartSpec)
    ensures StrictlyIncreasing(chart.labels)
    ensures forall d :: d in chart.labels <==> d in DatesOf(PlottedRows(data))
    ensures |chart.datasets| == |ChartBuyers(data)|
    ensures forall k :: 0 <= k < |chart.datasets| ==>
              chart.datasets[k].name == ChartBuyers(data)[k] && |chart.datasets[k].values| == |chart.labels|
    ensures forall k, j :: 0 <= k < |chart.datasets| && 0 <= j < |chart.labels| ==>
              chart.datasets[k].values[j] == DoneDocAt(PlottedRows(data), chart.datasets[k].name, chart.labels[j])
    ensures chart.title == Title && chart.kind == Kind && chart.colors == Palette
  {
    var buyers, perBuyer, dates := Accumulate(data);
    var labels := SortAscending(dates);
    var datasets := Align(buyers, perBuyer, labels, PlottedRows(data));
    chart := ChartSpec(labels, datasets, Title, Kind, Palette);
  }

  /** Second pass: one dataset per buyer, its values read from the table
      at each label, 0 where the buyer has no entry for that day. */
  method Align(buyers: seq<Option<string>>, perBuyer: map<Option<string>, map<int, int>>, labels: seq<int>,
               ghost rows: seq<QueryRow>)
      returns (datasets: seq<Dataset>)
    requires forall b :: b in buyers ==> b in perBuyer
    requires Tabulates(perBuyer, rows)
    ensures |datasets| == |buyers|
    ensures forall k :: 0 <= k < |buyers| ==> datasets[k].name == buyers[k] && |datasets[k].values| == |labels|
    ensures forall k, j :: 0 <= k < |buyers| && 0 <= j < |labels| ==>
              datasets[k].values[j] == DoneDocAt(rows, buyers[k], labels[j])
  {
    datasets := [];
    var k := 0;
    while k < |buyers|
      invariant 0 <= k <= |buyers|
      invariant |datasets| == k
      invariant forall j :: 0 <= j < k ==> datasets[j].name == buyers[j] && |datasets[j].values| == |labels|
      invariant forall j, t :: 0 <= j < k && 0 <= t < |labels| ==>
                  datasets[j].values[t] == DoneDocAt(rows, buyers[j], labels[t])
    {
      var m := perBuyer[buyers[k]];
      var values := seq(|labels|, t requires 0 <= t < |labels| => Lookup(m, labels[t]));
      datasets := datasets + [Dataset(buyers[k], values)];
      k := k + 1;
    }
  }

  /** Nothing is lost by the alignment: done documents for a buyer on a
      day come from a row of that buyer on that day, so the buyer has a
      dataset and the day is a label. */
  lemma {:induction false} DoneDocNeedsRow(rows: seq<QueryRow>, b: Option<string>, d: int)
    requires DoneDocAt(rows, b, d) != 0
    ensures exists i :: 0 <= i < |rows| && rows[i].buyer == b && rows[i].date == d
    decreases |rows|
  {
    var n := |rows| - 1;
    if DoneDocAt(rows[..n], b, d) != 0 {
      DoneDocNeedsRow(rows[..n], b, d);
      var i :| 0 <= i < n && rows[..n][i].buyer == b && rows[..n][i].date == d;
      assert rows[i] == rows[..n][i];
    }
  }

  /** The totals row adds nothing to the chart: the rows plotted from the
      report data are exactly the query rows. */
  lemma {:induction false} PlottedRowsOfReport(rows: seq<QueryRow>, data: seq<ReportRow>, totals: map<Key, int>)
    requires |data| == |rows|
    requires forall i :: 0 <= i < |rows| ==> data[i] == Entry(rows[i])
    ensures PlottedRows(data + [Totals(totals)]) == rows
    decreases |rows|
  {
    assert (data + [Totals(totals)])[..|data|] == data;
    if |rows| > 0 {
      var n := |rows| - 1;
      PlottedRowsOfReport(rows[..n], data[..n], totals);
      assert (data[..n] + [Totals(totals)])[..n] == data[..n];
      assert data[..n + 1][..n] == data[..n];
      assert data == data[..n] + [Entry(rows[n])];
      assert rows == rows[..n] + [rows[n]];
    }
  }
}

/** The rows of the Buyer Performance report.

    The aggregate query yields one row per (transaction date, buyer) pair with
    six counts and four percentages. A row is a dictionary in the source; here
    its numeric part is a map from column key to value, and a key that is
    absent stands for SQL NULL: every reader of the ten numeric keys (the
    totals loop and the chart's `done_doc`) writes `row.get(k) or 0`, so NULL
    and a missing key read alike as 0. Percentages are kept in
    hundredths of a percent (40.25 % is 4025), the precision the query rounds
    them to. Dates are day ordinals: the chart turns them into ISO
    `YYYY-MM-DD` strings, whose order is the chronological order. */
module Rows {

  datatype Option<+T> = None | Some(value: T)

  /** The ten numeric columns of a row. */
  datatype Key =
    | WoiItem | DoneItem | TotalItem | WoiDoc | DoneDoc | TotalDoc
    | WoiItemPercent | DoneItemPercent | WoiDocPercent | DoneDocPercent

  /** The four columns that hold a percentage rather than a count. */
  predicate IsPercent(k: Key) {
    k.WoiItemPercent? || k.DoneItemPercent? || k.WoiDocPercent? || k.DoneDocPercent?
  }

  /** The dictionary key under which each column is stored. */
  function FieldName(k: Key): string {
    match k
    case WoiItem => "woi_item"
    case DoneItem => "done_item"
    case TotalItem => "total_item"
    case WoiDoc => "woi_doc"
    case DoneDoc => "done_doc"
    case TotalDoc => "total_doc"
    case WoiItemPercent => "woi_item_percent"
    case DoneItemPercent => "done_item_percent"
    case WoiDocPercent => "woi_doc_percent"
    case DoneDocPercent => "done_doc_percent"
  }

  /** One result row of the aggregate query. `buyer` is None when the
      buyer name is NULL; `fields` lacks the keys whose value is NULL. */
  datatype QueryRow = QueryRow(date: int, buyer: Option<string>, fields: map<Key, int>)

  /** The transaction date cell of a report row: a day, or the literal "Total". */
  datatype DateCell = Day(ordinal: int) | TotalLabel

  /** A row of the report's data: a query row passed through unchanged, or
      the synthetic totals row, whose date cell reads "Total", whose buyer
      name is the empty string and which is rendered bold. */
  datatype ReportRow =
    | Entry(row: QueryRow)
    | Totals(sums: map<Key, int>)

  /** `x or 0` for a value that may be NULL. */
  function Cell(fields: map<Key, int>, k: Key): int {
    if k in fields then fields[k] else 0
  }

  /** The `transaction_date` value of a report row. */
  function Label(r: ReportRow): DateCell {
    match r
    case Entry(q) => Day(q.date)
    case Totals(_) => TotalLabel
  }

  /** The `buyer_name` value of a report row. */
  function BuyerOf(r: ReportRow): Option<string> {
    match r
    case Entry(q) => q.buyer
    case Totals(_) => Some("")
  }

  /** Whether the row carries `bold = 1`. */
  predicate Bold(r: ReportRow) {
    r.Totals?
  }

  /** `row.get(k) or 0` on a report row. */
  function Value(r: ReportRow, k: Key): int {
    match r
    case Entry(q) => Cell(q.fields, k)
    case Totals(s) => Cell(s, k)
  }

  /** `row.get("total_done", 0)`: neither a query row nor the totals row
      has a `total_done` key (the query selects none, and `Key` has no such
      column), so the lookup always falls back to its default. */
  function TotalDoneOf(r: ReportRow): int {
    0
  }
}

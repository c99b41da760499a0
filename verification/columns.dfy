/** The report's column schema. */
module Columns {
  import opened Rows
  import opened Seqs

  /** A column descriptor as handed to the report renderer. The caption is
      the untranslated message; `options` is None when not set. */
  datatype Column = Column(caption: string, fieldname: string, fieldtype: string, options: Option<string>, width: int)

  /** Defaults of the column builder's optional arguments. */
  const DefaultFieldType: string := "Currency"
  const DefaultWidth: int := 120

  /** Builds one descriptor. A missing or empty fieldname is derived from
      the label by `scrub`, the framework's label-to-identifier function;
      a Currency column gets the "currency" option and a Date column is
      forced to width 90, whatever width was asked for. */
  function AddColumn(scrub: string -> string, caption: string, fieldname: Option<string>,
                     fieldtype: string, options: Option<string>, width: int): (c: Column)
    ensures c.caption == caption && c.fieldtype == fieldtype
    ensures fieldname.Some? && fieldname.value != "" ==> c.fieldname == fieldname.value
    ensures fieldname == None || fieldname == Some("") ==> c.fieldname == scrub(caption)
    ensures fieldtype == "Currency" ==> c.options == Some("currency")
    ensures fieldtype != "Currency" ==> c.options == options
    ensures fieldtype == "Date" ==> c.width == 90
    ensures fieldtype != "Date" ==> c.width == width
  {
    var name := if fieldname.None? || fieldname.value == "" then scrub(caption) else fieldname.value;
    var opts := if fieldtype == "Currency" then Some("currency") else options;
    var w := if fieldtype == "Date" then 90 else width;
    Column(caption, name, fieldtype, opts, w)
  }

  /** A column built with every optional argument left at its default is a
      Currency column with the "currency" option, 120 wide, named after its label. */
  lemma DefaultColumn(scrub: string -> string, caption: string)
    ensures AddColumn(scrub, caption, None, DefaultFieldType, None, DefaultWidth)
         == Column(caption, scrub(caption), "Currency", Some("currency"), 120)
  {
  }

  /** What a column shows: the date, the buyer, or one numeric key. */
  datatype ColumnKey = TransactionDate | BuyerName | Metric(key: Key)

  /** The schema's order: date, buyer, then the item and document counts,
      each count followed by its percentage where it has one. */
  const Layout: seq<ColumnKey> := [
    TransactionDate, BuyerName,
    Metric(WoiItem), Metric(WoiItemPercent), Metric(DoneItem), Metric(DoneItemPercent), Metric(TotalItem),
    Metric(WoiDoc), Metric(WoiDocPercent), Metric(DoneDoc), Metric(DoneDocPercent), Metric(TotalDoc)]

  /** The row key a column displays. */
  function ColumnFieldName(c: ColumnKey): (name: string)
    ensures name != ""
  {
    match c
    case TransactionDate => "transaction_date"
    case BuyerName => "buyer_name"
    case Metric(k) => FieldName(k)
  }

  /** The (untranslated) caption of a column. */
  function Caption(c: ColumnKey): string {
    match c
    case TransactionDate => "RFQ Date"
    case BuyerName => "Buyer"
    case Metric(WoiItem) => "WOI Item"
    case Metric(WoiItemPercent) => "WOI Item %"
    case Metric(DoneItem) => "Done Item"
    case Metric(DoneItemPercent) => "Done Item %"
    case Metric(TotalItem) => "Total Item"
    case Metric(WoiDoc) => "WOI Doc"
    case Metric(WoiDocPercent) => "WOI Doc %"
    case Metric(DoneDoc) => "Done Doc"
    case Metric(DoneDocPercent) => "Done Doc %"
    case Metric(TotalDoc) => "Total doc"
  }

  /** Where a column sits in `Layout`. */
  function Position(c: ColumnKey): int {
    match c
    case TransactionDate => 0
    case BuyerName => 1
    case Metric(WoiItem) => 2
    case Metric(WoiItemPercent) => 3
    case Metric(DoneItem) => 4
    case Metric(DoneItemPercent) => 5
    case Metric(TotalItem) => 6
    case Metric(WoiDoc) => 7
    case Metric(WoiDocPercent) => 8
    case Metric(DoneDoc) => 9
    case Metric(DoneDocPercent) => 10
    case Metric(TotalDoc) => 11
  }

  /** The requested width of a column: 140 for date and buyer, 100 for the numbers. */
  function Width(c: ColumnKey): int {
    if c.Metric? then 100 else 140
  }

  /** One column of the schema: a Data column with an explicit fieldname,
      so neither `scrub` nor the Currency and Date rules of `AddColumn`
      come into play. */
  function DataColumn(scrub: string -> string, c: ColumnKey): (col: Column)
    ensures col.fieldname == ColumnFieldName(c) && col.caption == Caption(c)
    ensures col.fieldtype == "Data" && col.options == None && col.width == Width(c)
  {
    AddColumn(scrub, Caption(c), Some(ColumnFieldName(c)), "Data", None, Width(c))
  }

  /** The twelve columns, in `Layout` order: date and buyer 140 wide, the
      ten numbers 100 wide, all Data columns without options. */
  function GetColumns(scrub: string -> string): (cols: seq<Column>)
    ensures |cols| == |Layout| == 12
    ensures forall i :: 0 <= i < 12 ==>
              && cols[i].fieldname == ColumnFieldName(Layout[i])
              && cols[i].caption == Caption(Layout[i])
              && cols[i].fieldtype == "Data" && cols[i].options == None
    ensures cols[0].width == 140 && cols[1].width == 140
    ensures forall i :: 2 <= i < 12 ==> cols[i].width == 100
  {
    LayoutShape();
    seq(|Layout|, i requires 0 <= i < |Layout| => DataColumn(scrub, Layout[i]))
  }

  /** Date and buyer come first; every other column shows a number. */
  lemma LayoutShape()
    ensures |Layout| == 12
    ensures Layout[0] == TransactionDate && Layout[1] == BuyerName
    ensures forall i :: 2 <= i < 12 ==> Layout[i].Metric?
  {
  }

  /** The schema and the rows agree: the columns show every numeric key a
      row (and the totals row) carries, and no column twice. */
  lemma LayoutCoversKeys()
    ensures forall k: Key :: Metric(k) in Layout
    ensures Distinct(Layout)
  {
    assert forall i :: 0 <= i < |Layout| ==> Position(Layout[i]) == i;
    forall k: Key
      ensures Metric(k) in Layout
    {
      assert Layout[Position(Metric(k))] == Metric(k);
    }
  }

  /** The fieldnames of the schema, in order. */
  const SchemaFieldnames: seq<string> := [
    "transaction_date", "buyer_name", "woi_item", "woi_item_percent", "done_item", "done_item_percent",
    "total_item", "woi_doc", "woi_doc_percent", "done_doc", "done_doc_percent", "total_doc"]

  /** Each column's fieldname sits at the column's position in the list. */
  lemma FieldnameAtPosition(c: ColumnKey)
    ensures 0 <= Position(c) < 12 && ColumnFieldName(c) == SchemaFieldnames[Position(c)]
  {
    match c
    case TransactionDate =>
    case BuyerName =>
    case Metric(k) =>
      match k
      case WoiItem =>
      case DoneItem =>
      case TotalItem =>
      case WoiDoc =>
      case DoneDoc =>
      case TotalDoc =>
      case WoiItemPercent =>
      case DoneItemPercent =>
      case WoiDocPercent =>
      case DoneDocPercent =>
  }

  /** The schema's fieldnames are the twelve keys of a report row, in the
      fixed order. */
  lemma ColumnFieldnames(scrub: string -> string)
    ensures forall i :: 0 <= i < 12 ==> GetColumns(scrub)[i].fieldname == SchemaFieldnames[i]
  {
    var cols := GetColumns(scrub);
    forall i | 0 <= i < 12
      ensures cols[i].fieldname == SchemaFieldnames[i]
    {
      LayoutPositions(i);
      FieldnameAtPosition(Layout[i]);
    }
  }

  lemma LayoutPositions(i: int)
    requires 0 <= i < |Layout|
    ensures Position(Layout[i]) == i
  {
  }
}

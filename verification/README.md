# Buyer Performance report — a Dafny model

This project models the in-memory part of the Buyer Performance report in
`other/buyerrpe.py` and proves properties of it. The report runs these steps:

- It validates the date filter.
- It takes the rows of its aggregate query: one row per (transaction date, buyer) pair, with six counts and four percentages.
- It appends a totals row.
- It builds a line chart of documents done per buyer and day.
- It ranks the buyers by a per-row amount in a table it returns as its "message".
- It declares a fixed schema of twelve columns.

The model is a pure pipeline: `Report.Run` takes the filters, the query
(a function from the two dates to rows) and the framework's
label-to-fieldname function `scrub`, and returns the six values the
report hands back, or the validation error.

Representation choices:

- **Rows** (`Rows`). The numeric part of a row is a `map<Key, int>`. A key absent from the map stands for SQL NULL, because every reader of the ten numeric keys writes `row.get(k) or 0` (other/buyerrpe.py:217, 253).
- **Percentages** are whole hundredths of a percent. That is the precision the query rounds them to.
- **Dates** are day ordinals. The chart turns dates into ISO `YYYY-MM-DD` strings, so their order is chronological order.
- **Totals row.** It is a constructor of its own, `Totals`. Its date cell reads "Total", its buyer name is `""` and it is bold.
- **Buyer names** are `Option<string>`, because the query can return a NULL buyer.
- **Data passed to chart and ranking.** The source collects the query result in `self.docs` and then appends the totals row to that same list. So the chart and the ranking both iterate the data *including* the totals row. The model passes them the full data in the same way.
  - The chart skips the totals row because its date cell is "Total".
  - The ranking skips it because its buyer name is empty.
  - `Chart.PlottedRowsOfReport` and `Report.GetMessage` prove that neither one sees it.
- **`total_done` in the ranking.** The ranking sums `row.get("total_done", 0)`, but no row has a `total_done` key: the query selects none and the totals row has none. The model keeps this as written: `Rows.TotalDoneOf` is 0 on every row.
  - `Ranking.RankTable` is proved for any per-row amount.
  - `Ranking.RankTableAsWritten` is its instance for the report: every total is 0, so the stable sort keeps the buyers in first-seen order.
- **Ranking order.** The ranking sorts with a stable descending sort, so totals are non-increasing and equal totals keep first-seen order. A "strictly descending" order is not what the code does, and the model follows the code.
- **Totals-row percentages.** Each percentage in the totals row is the rounded mean of the per-row percentages, not the pooled ratio of the summed counts. `Totals.MeanIsNotPooledRatio` gives two rows where these differ.

## Model

| member | source | states |
|---|---|---|
| Filters.Validate | other/buyerrpe.py:69-71 | the range is rejected exactly when the end date precedes the start date, with the message "Date From suppose earlier than Date Until"; equal dates are accepted |
| Report.Run | other/buyerrpe.py:25-49 | validation comes before the query, so a rejected range yields the error and no output at all; an accepted range yields the twelve columns, the query rows followed by the totals row, a chart of exactly the query rows, a ranking of the named buyers in first-seen order each at 0, an empty summary and skip-total-row 0 |
| Report.GetData | other/buyerrpe.py:160-162 | the data are the query rows followed by one totals row whose every column holds that column's total (`Totals.TotalOf`) |
| Report.GetChart | other/buyerrpe.py:239-245 | the chart built from the report data plots the query rows and nothing else: labels, series and values are those of the query rows alone |
| Report.GetMessage | other/buyerrpe.py:279-285 | the totals row, whose buyer name is "", adds no line to the ranking: the ranking of the report data is that of the query rows |
| Report.ChartLosesNothing | other/buyerrpe.py:253-263 | every buyer and day with documents done has a series and a label in the chart, and the series shows exactly that amount on that day |
| Columns.AddColumn | other/buyerrpe.py:148-158 | the label and type are kept; a missing or empty fieldname becomes `scrub(label)`, a given one is kept; options become "currency" exactly for a Currency column and are otherwise kept; the width becomes 90 exactly for a Date column and is otherwise kept |
| Columns.DefaultColumn | other/buyerrpe.py:148 | a column built with every optional argument at its default is a Currency column with option "currency", width 120, named `scrub(label)` |
| Columns.GetColumns | other/buyerrpe.py:73-146 | exactly twelve columns, all of type Data without options; the captions in order; date and buyer 140 wide, the ten numbers 100 wide |
| Columns.ColumnFieldnames | other/buyerrpe.py:73-146 | the fieldnames are, in order, transaction_date, buyer_name, woi_item, woi_item_percent, done_item, done_item_percent, total_item, woi_doc, woi_doc_percent, done_doc, done_doc_percent, total_doc |
| Columns.LayoutCoversKeys | other/buyerrpe.py:73-146 | every numeric key a row carries has a column, and no column appears twice |
| Totals.AllKeysComplete | other/buyerrpe.py:201-212 | the accumulator starts with all ten numeric keys of a row; `Totals.BuildData` uses it to promise that the totals row has a cell for every key |
| Totals.TotalOf | other/buyerrpe.py:221-232 | the value of the totals row in column `k`: the column sum for a count, the rounded mean (0 for no rows) for a percentage. It has no contract of its own; `Report.GetData` and `Totals.BuildData` state that the totals row holds it, and `Totals.MeanPercentInRange` bounds it |
| Totals.SumKeys | other/buyerrpe.py:213-217 | after the accumulation loop every key's sum is the sum of that column over all rows, a NULL value adding 0 |
| Totals.KeySumBounds | other/buyerrpe.py:215-217 | a column whose values lie in [lo, hi] sums to between n·lo and n·hi over n rows |
| Totals.RoundHalfEven | other/buyerrpe.py:229-232 | the result is within half a unit of num/den, and a tie goes to the even neighbour |
| Totals.RoundingUnique | other/buyerrpe.py:229-232 | two integers that both round num/den half-to-even are equal |
| Totals.RoundHalfEvenUnique | other/buyerrpe.py:229-232 | any integer within half a unit of num/den that breaks ties to even is the rounding computed |
| Totals.RoundHalfEvenBounds | other/buyerrpe.py:229-232 | rounding the mean of values in [0, top] stays in [0, top] |
| Totals.MeanPercent | other/buyerrpe.py:229-232 | with no rows the mean is 0; otherwise it is within half a hundredth of the exact mean |
| Totals.MeanPercentInRange | other/buyerrpe.py:213-232 | when every row's percentage lies between 0 and 100 %, so does the totals row's |
| Totals.BuildData | other/buyerrpe.py:199-237 | the data are the query rows unchanged and in order plus exactly one more row, which is the totals row: date cell "Total", buyer "", bold; each count column holds the column's sum; each percentage holds 0 for no rows and otherwise the sum of the row percentages divided by the row count, rounded half-to-even, rows with a NULL percentage still counted |
| Totals.MeanIsNotPooledRatio | other/buyerrpe.py:219-232 | for 1 of 1 items open (100 %) and 0 of 3 (0 %) the totals row shows 50 %, while the summed counts give 1 of 4 (25 %) |
| Chart.GetChart | other/buyerrpe.py:239-274 | the labels are the distinct dates of the non-"Total" rows, strictly ascending; one series per distinct buyer in first-seen order; each series has one value per label, the sum of done_doc (NULL as 0) over that buyer's rows on that day, 0 if none; fixed title, type and palette |
| Chart.Accumulate | other/buyerrpe.py:243-255 | after the first pass the buyers are those of the non-"Total" rows in first-seen order, the (buyer, day) table holds the exact done_doc sums, and the dates are those of the rows |
| Chart.AddDone | other/buyerrpe.py:254 | `buyer_date_data[buyer][date] += value` for one row. It has no contract of its own; `Chart.AddDoneTabulates` states that it keeps the table exact |
| Chart.AddRow | other/buyerrpe.py:243-255 | one iteration of the first pass for a plotted row: afterwards the buyers are still those of the rows read so far in first-seen order, the table holds the exact done_doc sums, and the dates are those of the rows |
| Chart.AddDoneTabulates | other/buyerrpe.py:253-254 | adding one row's done_doc to its (buyer, day) cell keeps the table equal to the per-buyer-and-day sums |
| Chart.Align | other/buyerrpe.py:259-264 | one series per buyer in the given order, each read at every label from the table, 0 where the buyer has no entry for the day |
| Chart.DoneDocNeedsRow | other/buyerrpe.py:253-254 | a non-zero value for a buyer and day comes from a row of that buyer on that day |
| Chart.PlottedRows | other/buyerrpe.py:243-245 | the rows the chart reads: the data without the rows whose date cell is "Total". It has no contract of its own; `Chart.PlottedRowsOfReport` states what it yields on the report data |
| Chart.PlottedRowsOfReport | other/buyerrpe.py:243-245 | the rows plotted from the query rows followed by the totals row are exactly the query rows |
| Chart.DatesOf | other/buyerrpe.py:255 | a day is among the dates exactly when some row is dated that day |
| Seqs.Dedup | other/buyerrpe.py:260 | the buyers of an insertion-ordered dictionary: every element once, nothing else |
| Seqs.DedupFirstSeen | other/buyerrpe.py:260 | the de-duplicated elements are listed in the order of their first occurrence |
| Seqs.SortAscending | other/buyerrpe.py:257 | `sorted(date_set)` is strictly ascending and holds exactly the dates |
| Seqs.StrictlyIncreasingUnique | other/buyerrpe.py:257 | two strictly ascending sequences with the same elements are equal, so the sorted labels are determined by the set of dates |
| Ranking.Ranked | other/buyerrpe.py:282-284 | `if buyer:`: a row is ranked exactly when its buyer name is present and non-empty. It has no contract of its own; `Report.GetMessage` states that it leaves out the totals row |
| Rows.TotalDoneOf | other/buyerrpe.py:283 | `row.get("total_done", 0)`: no row carries the key, so the amount is 0. It has no contract of its own; `Ranking.ZeroAmount` states that every buyer's sum is then 0 |
| Ranking.AddAmount | other/buyerrpe.py:281-285 | one loop step: a row with a non-empty buyer adds its amount to that buyer, a new buyer joining the end of the order; any other row changes nothing |
| Ranking.BuyerSums | other/buyerrpe.py:280-285 | after the loop the buyers are every non-empty buyer once in first-seen order, each with the sum of its rows' amounts, and a buyer not listed has sum 0 |
| Ranking.BuyerTotals | other/buyerrpe.py:280-288 | the dictionary's items are the first-seen buyers with their totals |
| Ranking.InsertDescPermutes | other/buyerrpe.py:288 | inserting into the sorted list adds the one element and loses none |
| Ranking.SortDesc | other/buyerrpe.py:288 | the sorted list has non-increasing totals and is a permutation of its input |
| Ranking.InsertDescStable | other/buyerrpe.py:288 | an inserted element goes after every element with the same total |
| Ranking.SortDescStable | other/buyerrpe.py:288 | the sort is stable: the elements with any one total keep their relative order |
| Ranking.RankTable | other/buyerrpe.py:279-305 | one entry per distinct non-empty buyer, numbered 1..n; totals are non-increasing; the entries are a permutation of the first-seen buyer totals, and buyers with equal totals stay in first-seen order |
| Ranking.ZeroAmount | other/buyerrpe.py:283 | summing `total_done`, which no row carries, gives 0 for every buyer |
| Ranking.RankTableAsWritten | other/buyerrpe.py:279-305 | as the report computes it, entry i is (i+1, the i-th distinct non-empty buyer in first-seen order, 0) |

## Left out

- The aggregate SQL query (other/buyerrpe.py:169-197). Its grouping, the `NULLIF` guard, the percentage computation and the `ORDER BY` are done by the database, so `Report.Run` takes the query as a function parameter and nothing is assumed about its rows.
- `set_defaults` (other/buyerrpe.py:57-67). When no company filter is given it reads the default company from the database (other/buyerrpe.py:58-59); the company is never used by the query. When a date is missing it calls `nowdate()`, which the module does not import (other/buyerrpe.py:6, 9), so the run raises `NameError` instead of falling back to today. The model starts from filters whose dates are present, and the company is a field nothing reads.
- Translation `_()`, `scrub`, `frappe.utils.fmt_money` and logging are framework calls.
  - Captions are kept untranslated.
  - `scrub` is a parameter.
  - Money formatting and logging have no counterpart in the model.
- The HTML markup of the ranking table (other/buyerrpe.py:291-312). It is modelled as the list of (number, buyer, total) entries it renders.
- Totals.RoundHalfEven: Python's `round(x / count, 2)` rounds a binary float. The model rounds the exact quotient half-to-even on hundredths, and may differ from the float result when the float quotient sits just off a tie.
- Chart.GetChart: chart values and ranking totals are floats in the source (`defaultdict(float)`); the model uses exact integers.
- A NULL transaction date is not modelled. Every query row has a day; the query's `BETWEEN` filter excludes NULL dates anyway.
- Chart.GetChart: the conversion of dates to `YYYY-MM-DD` strings (other/buyerrpe.py:250-251) is not modelled. Dates stay ordinals, which sort in the same order.
- The chart's title, type and five-colour palette are stated as constants. How the UI cycles colours across more than five series is not part of the report code.
- `other/buyerperf.js`, the UI filter declaration and cell formatter, is not part of this model.

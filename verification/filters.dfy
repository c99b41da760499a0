/** The report's filters and the one validation the report performs. */
module Filters {
  import opened Rows

  /** The filters after defaulting. `company` is accepted but never read
      by the query. Dates are day ordinals. */
  datatype Filters = Filters(company: Option<string>, dateFrom: int, dateUntil: int)

  datatype Outcome = Pass | Fail(message: string)

  /** The user-facing message of the date-range error. */
  const RangeError: string := "Date From suppose earlier than Date Until"

  /** Rejects a range whose end precedes its start; equal dates form a
      one-day range and are accepted. */
  function Validate(f: Filters): (r: Outcome)
    ensures r.Fail? <==> f.dateUntil < f.dateFrom
    ensures r.Fail? ==> r.message == RangeError
    ensures f.dateFrom == f.dateUntil ==> r.Pass?
  {
    if f.dateUntil < f.dateFrom then Fail(RangeError) else Pass
  }
}

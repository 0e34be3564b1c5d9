/**
 * Points in time as the billing code stores them: milliseconds since the epoch, or
 * stored text that does not parse as a date. Calendar arithmetic (adding a month or
 * a year, rendering a date) is supplied from outside as functions.
 */
module Time {

  /** A stored timestamp: a parseable one reads as milliseconds, otherwise it is
      kept as the text (whose `Date.parse` is NaN). */
  datatype Timestamp = At(ms: int) | Unparseable(text: string)

  /** The calendar operations the sources take from `Date`: adding one month or one
      year in UTC, and `toISOString().slice(0, 10)`. */
  datatype Calendar = Calendar(addMonth: int -> int, addYear: int -> int, isoDate: int -> string)

  /** addBillingInterval: one year for the interval "year", one month for anything else. */
  function AddBillingInterval(calendar: Calendar, start: int, interval: string): (end: int)
    ensures interval == "year" ==> end == calendar.addYear(start)
    ensures interval != "year" ==> end == calendar.addMonth(start)
  {
    if interval == "year" then calendar.addYear(start) else calendar.addMonth(start)
  }
}

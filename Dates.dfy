/** Calendar values: the naive date-time the parser produces and the (month, day) pairs
    that the sign table and the age rule compare lexicographically. */
module Dates {

  /** A timezone-free date-time, as returned by the date parser. */
  datatype DateTime = DateTime(year: int, month: int, day: int, hour: int, minute: int, second: int)

  /** A (month, day) pair, compared like a Python tuple. */
  datatype MonthDay = MonthDay(month: int, day: int)

  /** The (month, day) pair of a date-time. */
  function MonthDayOf(dt: DateTime): MonthDay {
    MonthDay(dt.month, dt.day)
  }

  /** Lexicographic `a <= b` on (month, day) pairs. */
  predicate MonthDayLe(a: MonthDay, b: MonthDay) {
    a.month < b.month || (a.month == b.month && a.day <= b.day)
  }

  /** Lexicographic `a < b` on (month, day) pairs. */
  predicate MonthDayLt(a: MonthDay, b: MonthDay) {
    a.month < b.month || (a.month == b.month && a.day < b.day)
  }

  /** Lexicographic `a <= b` on the (year, month, day) part of two date-times. */
  predicate DateLe(a: DateTime, b: DateTime) {
    a.year < b.year || (a.year == b.year && MonthDayLe(MonthDayOf(a), MonthDayOf(b)))
  }
}

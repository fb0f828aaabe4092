/**
 * The enums of the `rrule` crate that the model converts to and from.  Only their
 * shape matters here: the recurrence expansion behind them is not part of this model.
 */
module RRuleCrate {
  datatype Frequency = Yearly | Monthly | Weekly | Daily | Hourly | Minutely | Secondly

  datatype Weekday = Mon | Tue | Wed | Thu | Fri | Sat | Sun

  /** `rrule::NWeekday`: every occurrence of a weekday, or the nth one (negative counts from the end). */
  datatype NWeekday = Every(weekday: Weekday) | Nth(n: int, weekday: Weekday)
}

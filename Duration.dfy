/** io.dropwizard.util.Duration, kept abstract: an amount and a time unit,
    equal when both parts are equal. No conversion between units is modelled. */
module Durations {
  import opened JavaLang

  datatype TimeUnit = Nanoseconds | Microseconds | Milliseconds | Seconds | Minutes | Hours | Days

  datatype Duration = Duration(count: Int64, unit: TimeUnit)

  function MicrosecondsOf(count: Int64): (r: Duration) { Duration(count, Microseconds) }
  function MillisecondsOf(count: Int64): (r: Duration) { Duration(count, Milliseconds) }
  function SecondsOf(count: Int64): (r: Duration) { Duration(count, Seconds) }
  function HoursOf(count: Int64): (r: Duration) { Duration(count, Hours) }
}

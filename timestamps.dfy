/** Conversion of a point in time to an InfluxDB timestamp at a given
    precision (basescript/stats.py, `_convert_timestamp`). A point in time is
    given as whole nanoseconds since the Unix epoch. */
module Timestamps {
  import opened Values

  const NanosPerSecond: int := 1_000_000_000

  /** The precision names the source accepts. */
  predicate KnownPrecision(p: string) {
    p == "ms" || p == "n" || p == "u" || p == "s" || p == "m" || p == "h"
  }

  /** Nanoseconds in one unit of a known precision. */
  function UnitNanos(p: string): (u: int)
    requires KnownPrecision(p)
    ensures u > 0
  {
    if p == "ms" then 1_000_000
    else if p == "n" then 1
    else if p == "u" then 1_000
    else if p == "s" then NanosPerSecond
    else if p == "m" then 60 * NanosPerSecond
    else 3600 * NanosPerSecond
  }

  /** Python's `int(a / b)`: division truncated toward zero. */
  function TruncDiv(a: int, b: int): int
    requires b > 0
  {
    if a >= 0 then a / b else -((-a) / b)
  }

  /** `_convert_timestamp(t, precision)`: the number of whole units of the
      precision between the epoch and `ns`, truncated toward zero; an unknown
      precision is a `ValueError`. */
  function ConvertTimestamp(ns: int, precision: string): (r: Result<int>)
    ensures r.Ok? <==> KnownPrecision(precision)
    ensures r.Ok? && ns >= 0 ==>
      0 <= r.value * UnitNanos(precision) <= ns < (r.value + 1) * UnitNanos(precision)
    ensures r.Ok? && ns < 0 ==>
      (r.value - 1) * UnitNanos(precision) < ns <= r.value * UnitNanos(precision) <= 0
  {
    if KnownPrecision(precision) then Ok(TruncDiv(ns, UnitNanos(precision)))
    else Err("unknown precision " + precision)
  }

  /** The dump sweep's timestamp: milliseconds since the epoch. */
  function MillisTimestamp(ns: int): (ts: int)
    ensures ConvertTimestamp(ns, "ms") == Ok(ts)
  {
    ConvertTimestamp(ns, "ms").value
  }

  /** 2017-01-20 08:09:10.312125 UTC is 1484899750312 ms and
      1484899750312125 us after the epoch. */
  lemma ConversionExamples()
    ensures ConvertTimestamp(1484899750312125000, "ms") == Ok(1484899750312)
    ensures ConvertTimestamp(1484899750312125000, "u") == Ok(1484899750312125)
    ensures ConvertTimestamp(1484899750312125000, "ns").Err?
  {
  }
}

/**
 * The JavaScript `Date` constructor applied to a number: the value is kept
 * only when it lies within ±8.64e15 ms of the epoch (TimeClip), and its
 * fraction is dropped toward zero.  Both last_updated.js and
 * consumption_lineplot.js build their dates this way.
 */
module JsDate {

  /** Largest magnitude of a JavaScript time value. */
  const MaxTimeValue := 8640000000000000

  /** A JavaScript `Date`: a whole number of milliseconds, or Invalid Date. */
  datatype DateValue = Valid(ms: int) | InvalidDate

  /** ToIntegerOrInfinity on a finite number: drop the fraction. */
  function TruncateTowardZero(x: real): (r: int)
    ensures 0.0 <= x ==> 0 <= r && r as real <= x < r as real + 1.0
    ensures x < 0.0 ==> r <= 0 && r as real - 1.0 < x <= r as real
  {
    if 0.0 <= x then x.Floor else -((-x).Floor)
  }

  /** `new Date(time)` for a number `time` of milliseconds. */
  function TimeClip(time: real): (d: DateValue)
    ensures d.Valid? <==> -MaxTimeValue as real <= time <= MaxTimeValue as real
    ensures d.Valid? ==> -MaxTimeValue <= d.ms <= MaxTimeValue
    ensures d.Valid? && 0.0 <= time ==> d.ms as real <= time < d.ms as real + 1.0
    ensures d.Valid? && time < 0.0 ==> d.ms as real - 1.0 < time <= d.ms as real
  {
    if time < -MaxTimeValue as real || MaxTimeValue as real < time then InvalidDate
    else Valid(TruncateTowardZero(time))
  }

  /** `new Date(ms)` for a whole number of milliseconds. */
  function FromMillis(ms: int): (d: DateValue)
    ensures d.Valid? <==> -MaxTimeValue <= ms <= MaxTimeValue
    ensures d.Valid? ==> d.ms == ms
  {
    TimeClip(ms as real)
  }
}

/**
 * The three line traces of the load chart (`createTraces` in
 * docs/javascripts/consumption_lineplot.js).  Timestamps arrive as
 * already-parsed time values in milliseconds; each plotted point is the
 * `Date` built one day later, which is Invalid Date when it leaves the
 * range of JavaScript time values.  Loads are exact reals.
 */
module ConsumptionLineplot {
  import opened Wrappers
  import opened JsDate

  /** `24 * 60 * 60 * 1000`. */
  const OneDayMs: int := 24 * 60 * 60 * 1000

  /** The `/latest-forecast` response: our model's day-ahead predictions. */
  datatype ForecastData = ForecastData(timestamps: seq<int>, predicted24hLaterLoad: seq<real>)

  /** The `/entsoe-loads` response: actual load and ENTSO-E's day-ahead forecast. */
  datatype EntsoeData = EntsoeData(timestamps: seq<int>, load24hLater: seq<real>, forecast24hLater: seq<real>)

  datatype LineTrace = LineTrace(x: seq<DateValue>, y: seq<real>, mode: string, kind: string, name: string, opacity: Option<real>)

  const ActualName := "Actual Load [MW]"
  const OfficialName := "ENTSO-E's previous-day forecasted load [MW]"
  const OurName := "Our previous-day forecasted load [MW]"

  predicate StrictlyIncreasing(ts: seq<int>) {
    forall i, j :: 0 <= i < j < |ts| ==> ts[i] < ts[j]
  }

  /** Every point is valid and the points are in strictly increasing time order. */
  predicate IncreasingDates(xs: seq<DateValue>) {
    && (forall i :: 0 <= i < |xs| ==> xs[i].Valid?)
    && (forall i, j :: 0 <= i < j < |xs| ==> xs[i].ms < xs[j].ms)
  }

  /** Time values that stay valid after moving one day forward. */
  predicate InShiftRange(ts: seq<int>) {
    forall i :: 0 <= i < |ts| ==> -MaxTimeValue <= ts[i] <= MaxTimeValue - 86400000
  }

  /** `new Date(new Date(t).getTime() + oneDayInMilliseconds)`. */
  function ShiftPoint(t: int): (d: DateValue)
    ensures d.Valid? <==> -MaxTimeValue <= t <= MaxTimeValue - 86400000
    ensures d.Valid? ==> d.ms - t == 86400000
  {
    match FromMillis(t)
    case InvalidDate => InvalidDate
    case Valid(ms) => FromMillis(ms + OneDayMs)
  }

  /** `ts.map(t => new Date(new Date(t).getTime() + oneDayInMilliseconds))`. */
  function ShiftOneDay(ts: seq<int>): (shifted: seq<DateValue>)
    ensures |shifted| == |ts|
    ensures forall i :: 0 <= i < |ts| ==>
      (shifted[i].Valid? <==> -MaxTimeValue <= ts[i] <= MaxTimeValue - 86400000)
    ensures forall i :: 0 <= i < |ts| ==> shifted[i].Valid? ==> shifted[i].ms - ts[i] == 86400000
  {
    seq(|ts|, i requires 0 <= i < |ts| => ShiftPoint(ts[i]))
  }

  /** The time values of a series of valid dates. */
  function TimeValues(xs: seq<DateValue>): (ts: seq<int>)
    requires forall i :: 0 <= i < |xs| ==> xs[i].Valid?
  {
    seq(|xs|, i requires 0 <= i < |xs| => xs[i].ms)
  }

  /** Moving every point back by a day: the inverse of `ShiftOneDay`. */
  function ShiftBackOneDay(ts: seq<int>): (shifted: seq<int>)
  {
    seq(|ts|, i requires 0 <= i < |ts| => ts[i] - OneDayMs)
  }

  /**
   * Within the range of time values, moving back a day undoes the shift,
   * and the shift undoes moving back a day.
   */
  lemma ShiftRoundTrip(ts: seq<int>)
    ensures InShiftRange(ts) ==>
      && (forall i :: 0 <= i < |ts| ==> ShiftOneDay(ts)[i].Valid?)
      && ShiftBackOneDay(TimeValues(ShiftOneDay(ts))) == ts
    ensures InShiftRange(ShiftBackOneDay(ts)) ==>
      ShiftOneDay(ShiftBackOneDay(ts)) == seq(|ts|, i requires 0 <= i < |ts| => Valid(ts[i]))
  {
  }

  /**
   * The shifted series is valid and strictly increasing exactly when the
   * source series is strictly increasing and stays in range.
   */
  lemma ShiftKeepsOrder(ts: seq<int>)
    ensures IncreasingDates(ShiftOneDay(ts)) <==> StrictlyIncreasing(ts) && InShiftRange(ts)
  {
  }

  /** `Math.round`: the nearest integer, halves rounded up. */
  function Round(v: real): (n: int)
    ensures v - 0.5 < n as real <= v + 0.5
  {
    (v + 0.5).Floor
  }

  /** A value that is already whole is left as it is. */
  lemma RoundWhole(n: int)
    ensures Round(n as real) == n
  {
  }

  /** `ys.map(y => Math.round(y))`. */
  function RoundAll(ys: seq<real>): (rounded: seq<real>)
    ensures |rounded| == |ys|
    ensures forall i :: 0 <= i < |ys| ==>
      rounded[i] == rounded[i].Floor as real && ys[i] - 0.5 < rounded[i] <= ys[i] + 0.5
  {
    seq(|ys|, i requires 0 <= i < |ys| => Round(ys[i]) as real)
  }

  function CreateTraces(forecast: ForecastData, entsoe: EntsoeData): (traces: seq<LineTrace>)
    ensures |traces| == 3
    ensures traces[0].name == ActualName && traces[1].name == OfficialName && traces[2].name == OurName
    ensures forall k :: 0 <= k < 3 ==> traces[k].mode == "lines" && traces[k].kind == "scatter"
    ensures traces[1].opacity == Some(0.3) && traces[0].opacity.None? && traces[2].opacity.None?
    ensures traces[0].x == traces[1].x
    ensures traces[0].y == entsoe.load24hLater && traces[1].y == entsoe.forecast24hLater
    ensures |traces[0].x| == |entsoe.timestamps| && |traces[2].x| == |forecast.timestamps|
    ensures |traces[2].y| == |forecast.predicted24hLaterLoad|
  {
    var actualLoadTrace := LineTrace(ShiftOneDay(entsoe.timestamps), entsoe.load24hLater, "lines", "scatter", ActualName, None);
    var officialForecastTrace := LineTrace(ShiftOneDay(entsoe.timestamps), entsoe.forecast24hLater, "lines", "scatter", OfficialName, Some(0.3));
    var ourForecastTrace := LineTrace(ShiftOneDay(forecast.timestamps), RoundAll(forecast.predicted24hLaterLoad), "lines", "scatter", OurName, None);
    [actualLoadTrace, officialForecastTrace, ourForecastTrace]
  }

  /**
   * Every point of every trace sits exactly one day after its source
   * timestamp, unless that day leaves the range of time values, and then
   * the point is Invalid Date.  Moving the points back a day recovers the
   * source series.
   */
  lemma TracesShiftedOneDay(forecast: ForecastData, entsoe: EntsoeData)
    ensures var traces := CreateTraces(forecast, entsoe);
      && (forall i :: 0 <= i < |entsoe.timestamps| ==>
            && (traces[0].x[i].Valid? <==> -MaxTimeValue <= entsoe.timestamps[i] <= MaxTimeValue - 86400000)
            && (traces[0].x[i].Valid? ==> traces[0].x[i].ms == entsoe.timestamps[i] + 86400000))
      && (forall i :: 0 <= i < |forecast.timestamps| ==>
            && (traces[2].x[i].Valid? <==> -MaxTimeValue <= forecast.timestamps[i] <= MaxTimeValue - 86400000)
            && (traces[2].x[i].Valid? ==> traces[2].x[i].ms == forecast.timestamps[i] + 86400000))
      && (InShiftRange(entsoe.timestamps) ==> ShiftBackOneDay(TimeValues(traces[0].x)) == entsoe.timestamps)
      && (InShiftRange(forecast.timestamps) ==> ShiftBackOneDay(TimeValues(traces[2].x)) == forecast.timestamps)
  {
  }

  /**
   * A trace is valid and in strictly increasing time order exactly when its
   * source timestamps are strictly increasing and stay in range.
   */
  lemma TracesKeepOrder(forecast: ForecastData, entsoe: EntsoeData)
    ensures var traces := CreateTraces(forecast, entsoe);
      && (IncreasingDates(traces[0].x) <==> StrictlyIncreasing(entsoe.timestamps) && InShiftRange(entsoe.timestamps))
      && (IncreasingDates(traces[1].x) <==> StrictlyIncreasing(entsoe.timestamps) && InShiftRange(entsoe.timestamps))
      && (IncreasingDates(traces[2].x) <==> StrictlyIncreasing(forecast.timestamps) && InShiftRange(forecast.timestamps))
  {
  }

  /** Point i of our forecast is prediction i rounded to the nearest integer. */
  lemma OurForecastRounded(forecast: ForecastData, entsoe: EntsoeData, i: nat)
    requires i < |forecast.predicted24hLaterLoad|
    ensures var y := CreateTraces(forecast, entsoe)[2].y[i];
      && y == y.Floor as real
      && forecast.predicted24hLaterLoad[i] - 0.5 < y <= forecast.predicted24hLaterLoad[i] + 0.5
  {
  }
}

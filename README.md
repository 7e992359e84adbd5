# swissenergy-frontend: the data shaping behind the charts, in Dafny

The documentation site of swissenergy shows two Plotly charts and one
status line. Three browser scripts each fetch JSON, reshape it and hand it
to Plotly or the page. This project models the reshaping step of each
script and proves what it promises:

- `LastUpdated` (docs/javascripts/last_updated.js): converts the backend's
  seconds timestamp to a JavaScript time value, and picks the unit and count
  that `timeSince` reports (years, months, days, hours, minutes, else raw
  seconds). It also gives the text `"Last update: <n> <unit> ago"`. The
  clock is the parameter `now`, in milliseconds.
- `JsDate`: the JavaScript `Date` constructor applied to a number. It keeps
  a time value only within ±8.64e15 ms of the epoch and drops its fraction
  toward zero. Both `LastUpdated` and `ConsumptionLineplot` use it.
- `NumberText`: the decimal text JavaScript writes for the whole number in
  that message. The module also reads the text back.
- `MapeBarplot` (docs/javascripts/mape_barplot.js): `createBarTraces`. It
  relabels the duration keys `7d` and `4w`. It pairs labels with MAPE values
  by position. Only for the week and month bars does it add an error bar of
  5% of the MAPE. It returns the ENTSO-E trace and then ours.
- `ConsumptionLineplot` (docs/javascripts/consumption_lineplot.js):
  `createTraces`. It shifts every timestamp one day (86,400,000 ms) forward.
  A point that leaves the range of time values becomes Invalid Date.
  It passes the ENTSO-E load and forecast series through unchanged and
  rounds our predictions. It returns the three traces in a fixed order.
- `Wrappers`: `Option`, for the optional `error_y` and `opacity` fields.

All six modules are pure functions over datatypes, as the scripts' reshaping functions are:
`.map` calls, conditionals and object literals, with no mutation.

The comment at docs/javascripts/mape_barplot.js:31-33 speaks of a 10% error,
but the code multiplies by 0.05. The model follows the code.

## Model

| member | source | states |
|---|---|---|
| NumberText.NatToString | docs/javascripts/last_updated.js:27-35 | the count is written as a non-empty string of decimal digits with no leading zero; it has one digit exactly when the count is below 10 |
| NumberText.NatToStringRoundTrip | docs/javascripts/last_updated.js:27-35 | reading the digits back gives the count that was written |
| NumberText.IntToString | docs/javascripts/last_updated.js:36 | the text starts with '-' exactly when the number is negative (a timestamp in the future), and digits follow |
| NumberText.IntToStringRoundTrip | docs/javascripts/last_updated.js:36 | the written number reads back as itself, negative ones included |
| NumberText.IntToStringInjective | docs/javascripts/last_updated.js:27-36 | two different counts never give the same text |
| JsDate.TruncateTowardZero | docs/javascripts/last_updated.js:17 | the Date constructor drops the fractional milliseconds toward zero: the result has the sign of the input and is within one of it |
| JsDate.TimeClip | docs/javascripts/last_updated.js:17 | `new Date(time)` is valid exactly when time lies within ±8.64e15 ms; its value is then time with the fraction cut toward zero |
| JsDate.FromMillis | docs/javascripts/consumption_lineplot.js:30 | `new Date(ms)` of a whole number is valid exactly within ±8.64e15 ms, and its value is then ms itself |
| LastUpdated.DateFromSeconds | docs/javascripts/last_updated.js:17 | the date is valid exactly when timestamp × 1000 lies within ±8.64e15 ms; its time value is then timestamp × 1000 with the fraction cut toward zero |
| LastUpdated.WholeSecondsToMillis | docs/javascripts/last_updated.js:17 | a whole-second timestamp in range becomes exactly timestamp × 1000 milliseconds |
| LastUpdated.ElapsedSeconds | docs/javascripts/last_updated.js:24 | the elapsed seconds s are floor((now − date) / 1000): 1000·s ≤ now − date < 1000·(s+1), negative for a future date |
| LastUpdated.FromSeconds | docs/javascripts/last_updated.js:25-36 | years exactly when s ≥ 2·31,536,000; else months exactly when s ≥ 2·2,592,000; likewise days, hours and minutes; seconds exactly when s < 120, and the count is then s itself; a larger unit has a count of at least 2; always N·count ≤ s < N·(count+1) for the unit's length N |
| LastUpdated.TimeSince | docs/javascripts/last_updated.js:22-37 | the result is "NaN" exactly when the date is invalid; for a valid date the unit is seconds exactly when less than 120,000 ms have elapsed, and years exactly when at least 2·31,536,000,000 ms have |
| LastUpdated.UnitMonotone | docs/javascripts/last_updated.js:25-36 | more elapsed seconds never give a smaller unit |
| LastUpdated.TimeSinceMonotone | docs/javascripts/last_updated.js:22-36 | a later `now` never gives a smaller unit |
| LastUpdated.Render | docs/javascripts/last_updated.js:27-36 | an invalid date gives "NaN seconds"; otherwise the text is the count, which reads back from the text, then a space and the unit word |
| LastUpdated.WordIsPlural | docs/javascripts/last_updated.js:27-36 | every unit word ends in 's' |
| LastUpdated.LastUpdatedText | docs/javascripts/last_updated.js:16-20 | the text always starts with "Last update: " and ends with " ago", with something between them |
| LastUpdated.LastUpdatedInvalidDate | docs/javascripts/last_updated.js:16-36 | a timestamp out of the Date range gives exactly "Last update: NaN seconds ago" |
| LastUpdated.LastUpdatedValidDate | docs/javascripts/last_updated.js:16-36 | for any timestamp, fractional ones included, that gives a valid date, the text is "Last update: <n> <unit> ago", and <n> whole units fit into the milliseconds elapsed since that date but <n>+1 do not |
| LastUpdated.LastUpdatedWholeSeconds | docs/javascripts/last_updated.js:16-36 | for a whole-second timestamp the text is "Last update: <n> <unit> ago", and <n> whole units fit into the milliseconds elapsed since timestamp × 1000 but <n>+1 do not; <n> reads back from the text |
| MapeBarplot.Relabel | docs/javascripts/mape_barplot.js:13-17 | the label is "1 week" exactly for the keys "7d" and "1 week", "1 month" exactly for "4w" and "1 month", and every other key is kept |
| MapeBarplot.Durations | docs/javascripts/mape_barplot.js:13-17 | one label per entry, in entry order; label i is "1 week" exactly when key i is "7d" or "1 week", "1 month" exactly when key i is "4w" or "1 month", and any other key is kept |
| MapeBarplot.Mapes | docs/javascripts/mape_barplot.js:19 | one value per entry, in entry order: value i is the MAPE of entry i |
| MapeBarplot.ErrorBars | docs/javascripts/mape_barplot.js:30-36 | one error bar per label; a twentieth of the MAPE at the same index for "1 week" and "1 month", 0 for every other label |
| MapeBarplot.RelabelIdempotent | docs/javascripts/mape_barplot.js:14-16 | relabelling a label again changes nothing |
| MapeBarplot.DurationsIdempotent | docs/javascripts/mape_barplot.js:21-25 | relabelling the entries by their own labels gives the same label list |
| MapeBarplot.CreateBarTraces | docs/javascripts/mape_barplot.js:11-60 | two bar traces, ENTSO-E's first and ours second; only ours has `error_y`, of type "data" and visible; each trace has one label and one value per entry, and ours has one error bar per entry |
| MapeBarplot.BarsPairEntries | docs/javascripts/mape_barplot.js:13-27 | bar i of each trace carries the relabelled key and the MAPE of that model's i-th entry |
| MapeBarplot.ErrorBarAt | docs/javascripts/mape_barplot.js:30-36 | our bar i has error 0.05 × its MAPE when its key is "7d", "4w", "1 week" or "1 month", and 0 otherwise |
| MapeBarplot.ErrorBarBounded | docs/javascripts/mape_barplot.js:32-35 | for a non-negative MAPE the error bar lies between 0 and a twentieth of it |
| ConsumptionLineplot.ShiftPoint | docs/javascripts/consumption_lineplot.js:30 | the shifted date is valid exactly when the timestamp lies between −8.64e15 and 8.64e15 − 86,400,000 ms, and it is then exactly 86,400,000 ms later |
| ConsumptionLineplot.ShiftOneDay | docs/javascripts/consumption_lineplot.js:27-30 | one output point per timestamp; point i is valid exactly when timestamp i stays in range after a day, and it is then exactly 86,400,000 ms later |
| ConsumptionLineplot.ShiftRoundTrip | docs/javascripts/consumption_lineplot.js:27-30 | within the range, every shifted point is valid and moving it back a day recovers the timestamps, and the other way round |
| ConsumptionLineplot.ShiftKeepsOrder | docs/javascripts/consumption_lineplot.js:30 | the shifted series is valid and strictly increasing exactly when the timestamps are strictly increasing and stay in range |
| ConsumptionLineplot.Round | docs/javascripts/consumption_lineplot.js:48 | `Math.round` gives the integer n with v − ½ < n ≤ v + ½ (halves go up) |
| ConsumptionLineplot.RoundWhole | docs/javascripts/consumption_lineplot.js:48 | a whole prediction is drawn unchanged |
| ConsumptionLineplot.RoundAll | docs/javascripts/consumption_lineplot.js:48 | one value per prediction, each a whole number within ½ of the prediction at the same index |
| ConsumptionLineplot.CreateTraces | docs/javascripts/consumption_lineplot.js:26-55 | three traces: actual load, ENTSO-E's forecast, ours, all "lines"/"scatter"; only the second has opacity 0.3; the first two share their x series and carry the input load and forecast unchanged; each x series has one point per source timestamp; ours has one y value per prediction |
| ConsumptionLineplot.TracesShiftedOneDay | docs/javascripts/consumption_lineplot.js:27-47 | every x value is its source timestamp + 86,400,000 ms, or Invalid Date exactly when that leaves the range; within the range, shifting back recovers the source timestamps |
| ConsumptionLineplot.TracesKeepOrder | docs/javascripts/consumption_lineplot.js:30-47 | each trace's x series is valid and strictly increasing exactly when its source timestamps are strictly increasing and stay in range |
| ConsumptionLineplot.OurForecastRounded | docs/javascripts/consumption_lineplot.js:48 | our y value i is a whole number within ½ of prediction i |

## Left out

- The `fetch` calls, the `response.ok` checks and JSON decoding in all three scripts. These are network I/O against external endpoints.
- `main`, the `DOMContentLoaded` listeners, the `textContent` writes (including the "Error fetching last updated time." fallback) and `console` logging. These are browser plumbing.
- `renderChart`, `renderBarChart` and `Plotly.newPlot`. They call into a plotting library outside the repository.
- `createLayout` and `createBarLayout`. They build constant configuration objects, and `createLayout` also reads the wall clock.
- The clock read by `new Date()` in `timeSince`. It is the parameter `now`, a whole number of milliseconds.
- Parsing of timestamp strings by `new Date(t)` in `createTraces`. Timestamps are taken as already-parsed whole milliseconds, so an unparsable string is not modelled there. The Date range is modelled, both for that Date and for the one a day later.
- IEEE double arithmetic. Products, quotients and `Math.round` are computed exactly on integers and reals, so rounding of `timestamp * 1000`, of `0.05 * mape` and of `(now - date) / 1000` near the ends of the time range is not captured.
- NumberText.IntToString: writes every integer in plain digits. JavaScript switches to exponent notation from 10^21 on, but no count from a valid date gets near that.
- The key order of `Object.keys` and `Object.values`. Each MAPE object is taken as an ordered list of (duration, MAPE) entries.
- `mapeOurModel[index]` out of range (undefined). Keys and values come from the same object, so `ErrorBars` requires the two lists to have the same length.

/**
 * The "Last update: ... ago" line of the documentation site
 * (docs/javascripts/last_updated.js).  The wall clock read by `timeSince`
 * is the parameter `now`, in milliseconds since the epoch.
 */
module LastUpdated {
  import opened NumberText
  import opened JsDate

  const MillisPerSecond := 1000
  const SecondsPerYear := 31536000
  const SecondsPerMonth := 2592000
  const SecondsPerDay := 86400
  const SecondsPerHour := 3600
  const SecondsPerMinute := 60

  /** The units `timeSince` can report, smallest first. */
  datatype Unit = Seconds | Minutes | Hours | Days | Months | Years {

    function Rank(): (rank: nat) {
      match this
      case Seconds => 0
      case Minutes => 1
      case Hours => 2
      case Days => 3
      case Months => 4
      case Years => 5
    }

    /** Length of one unit, in seconds. */
    function Length(): (seconds: nat) {
      match this
      case Seconds => 1
      case Minutes => SecondsPerMinute
      case Hours => SecondsPerHour
      case Days => SecondsPerDay
      case Months => SecondsPerMonth
      case Years => SecondsPerYear
    }

    /** The word written after the count: always the plural. */
    function Word(): (word: string) {
      match this
      case Seconds => "seconds"
      case Minutes => "minutes"
      case Hours => "hours"
      case Days => "days"
      case Months => "months"
      case Years => "years"
    }
  }

  /** What `timeSince` returns: a count and a unit, or "NaN seconds". */
  datatype Elapsed = Elapsed(count: int, unit: Unit) | NotANumber

  /**
   * `new Date(timestamp * 1000)` in `displayLastUpdated`: seconds to
   * milliseconds, then the Date constructor.
   */
  function DateFromSeconds(timestamp: real): (d: DateValue)
    ensures d.Valid? <==> -MaxTimeValue as real <= timestamp * 1000.0 <= MaxTimeValue as real
    ensures d.Valid? ==> -MaxTimeValue <= d.ms <= MaxTimeValue
    ensures d.Valid? && 0.0 <= timestamp ==> d.ms as real <= timestamp * 1000.0 < d.ms as real + 1.0
    ensures d.Valid? && timestamp < 0.0 ==> d.ms as real - 1.0 < timestamp * 1000.0 <= d.ms as real
  {
    TimeClip(timestamp * MillisPerSecond as real)
  }

  /** A whole-second timestamp becomes exactly 1000 times itself. */
  lemma WholeSecondsToMillis(timestamp: int)
    requires -MaxTimeValue <= timestamp * 1000 <= MaxTimeValue
    ensures DateFromSeconds(timestamp as real) == Valid(timestamp * 1000)
  {
  }

  /** `Math.floor((now - date) / 1000)`. */
  function ElapsedSeconds(now: int, date: int): (s: int)
    ensures MillisPerSecond * s <= now - date < MillisPerSecond * (s + 1)
  {
    (now - date) / MillisPerSecond
  }

  /**
   * The threshold chain of `timeSince` on the elapsed seconds: the first of
   * years, months, days, hours, minutes whose floored count exceeds 1.
   */
  function FromSeconds(seconds: int): (r: Elapsed)
    ensures r.Elapsed?
    ensures r.unit == Years <==> 2 * SecondsPerYear <= seconds
    ensures r.unit == Months <==> 2 * SecondsPerMonth <= seconds < 2 * SecondsPerYear
    ensures r.unit == Days <==> 2 * SecondsPerDay <= seconds < 2 * SecondsPerMonth
    ensures r.unit == Hours <==> 2 * SecondsPerHour <= seconds < 2 * SecondsPerDay
    ensures r.unit == Minutes <==> 2 * SecondsPerMinute <= seconds < 2 * SecondsPerHour
    ensures r.unit == Seconds <==> seconds < 2 * SecondsPerMinute
    ensures r.unit == Seconds ==> r.count == seconds
    ensures r.unit != Seconds ==> 2 <= r.count
    ensures r.unit.Length() * r.count <= seconds < r.unit.Length() * (r.count + 1)
  {
    var interval := seconds / SecondsPerYear;
    if interval > 1 then Elapsed(interval, Years) else
    var interval := seconds / SecondsPerMonth;
    if interval > 1 then Elapsed(interval, Months) else
    var interval := seconds / SecondsPerDay;
    if interval > 1 then Elapsed(interval, Days) else
    var interval := seconds / SecondsPerHour;
    if interval > 1 then Elapsed(interval, Hours) else
    var interval := seconds / SecondsPerMinute;
    if interval > 1 then Elapsed(interval, Minutes) else
    Elapsed(seconds, Seconds)
  }

  /** `timeSince(date)` evaluated at the instant `now`. */
  function TimeSince(now: int, date: DateValue): (r: Elapsed)
    ensures r.NotANumber? <==> date.InvalidDate?
    ensures date.Valid? ==> (r.unit == Seconds <==> now - date.ms < 2 * SecondsPerMinute * MillisPerSecond)
    ensures date.Valid? ==> (r.unit == Years <==> 2 * SecondsPerYear * MillisPerSecond <= now - date.ms)
  {
    match date
    case InvalidDate => NotANumber
    case Valid(ms) => FromSeconds(ElapsedSeconds(now, ms))
  }

  /** A larger elapsed time never yields a smaller unit. */
  lemma UnitMonotone(s1: int, s2: int)
    requires s1 <= s2
    ensures FromSeconds(s1).unit.Rank() <= FromSeconds(s2).unit.Rank()
  {
  }

  /** A later `now` never yields a smaller unit. */
  lemma TimeSinceMonotone(now1: int, now2: int, date: int)
    requires now1 <= now2
    ensures TimeSince(now1, Valid(date)).unit.Rank() <= TimeSince(now2, Valid(date)).unit.Rank()
  {
  }

  /**
   * The text `timeSince` returns: "NaN seconds" for an invalid date,
   * otherwise the count, a space and the unit word, where the count reads
   * back from the text.
   */
  function Render(e: Elapsed): (text: string)
    ensures e.NotANumber? ==> text == "NaN seconds"
    ensures e.Elapsed? ==>
      var n := |IntToString(e.count)|;
      && n < |text|
      && text[..n] == IntToString(e.count)
      && IntValue(text[..n]) == e.count
      && text[n..] == " " + e.unit.Word()
  {
    match e
    case NotANumber => "NaN seconds"
    case Elapsed(n, u) =>
      var digits := IntToString(n);
      IntToStringRoundTrip(n);
      assert (digits + " " + u.Word())[..|digits|] == digits;
      digits + " " + u.Word()
  }

  /** Every unit word is a plural. */
  lemma WordIsPlural(u: Unit)
    ensures |u.Word()| > 1 && u.Word()[|u.Word()| - 1] == 's'
  {
  }

  const Prefix := "Last update: "
  const Suffix := " ago"

  /** The text `displayLastUpdated(timestamp)` writes, at the instant `now`. */
  function LastUpdatedText(timestamp: real, now: int): (text: string)
    ensures |Prefix| + |Suffix| < |text|
    ensures text[..|Prefix|] == Prefix && text[|text| - |Suffix|..] == Suffix
  {
    Prefix + Render(TimeSince(now, DateFromSeconds(timestamp))) + Suffix
  }

  /** An out-of-range timestamp gives an invalid date, and the line reads "NaN seconds". */
  lemma LastUpdatedInvalidDate(timestamp: real, now: int)
    requires DateFromSeconds(timestamp).InvalidDate?
    ensures LastUpdatedText(timestamp, now) == "Last update: NaN seconds ago"
  {
  }

  /**
   * For any timestamp that gives a valid date, the line reads
   * "Last update: <n> <unit> ago", where <n> whole units fit into the
   * milliseconds elapsed since that date and <n> + 1 do not.
   */
  lemma LastUpdatedValidDate(timestamp: real, now: int)
    requires DateFromSeconds(timestamp).Valid?
    ensures var date := DateFromSeconds(timestamp).ms;
      var e := TimeSince(now, Valid(date));
      && e.Elapsed?
      && LastUpdatedText(timestamp, now) == Prefix + IntToString(e.count) + " " + e.unit.Word() + Suffix
      && MillisPerSecond * e.unit.Length() * e.count <= now - date
      && now - date < MillisPerSecond * e.unit.Length() * (e.count + 1)
  {
    var date := DateFromSeconds(timestamp).ms;
    var e := TimeSince(now, Valid(date));
    var s := ElapsedSeconds(now, date);
    var len := e.unit.Length();
    assert len * e.count <= s < len * (e.count + 1);
    assert MillisPerSecond * (len * e.count) == MillisPerSecond * len * e.count;
    assert MillisPerSecond * (len * (e.count + 1)) == MillisPerSecond * len * (e.count + 1);
  }

  /**
   * For a whole-second timestamp the same holds with the date at exactly
   * `timestamp * 1000` milliseconds.
   */
  lemma LastUpdatedWholeSeconds(timestamp: int, now: int)
    requires -MaxTimeValue <= timestamp * 1000 <= MaxTimeValue
    ensures var e := TimeSince(now, Valid(timestamp * 1000));
      && e.Elapsed?
      && LastUpdatedText(timestamp as real, now) == Prefix + IntToString(e.count) + " " + e.unit.Word() + Suffix
      && MillisPerSecond * e.unit.Length() * e.count <= now - timestamp * 1000
      && now - timestamp * 1000 < MillisPerSecond * e.unit.Length() * (e.count + 1)
      && IntValue(IntToString(e.count)) == e.count
  {
    WholeSecondsToMillis(timestamp);
    LastUpdatedValidDate(timestamp as real, now);
    IntToStringRoundTrip(TimeSince(now, Valid(timestamp * 1000)).count);
  }
}

/**
 * Pure presentation decisions: the magnitude class of a list badge, the
 * style of a map marker, the relative-time bucket of a time stamp and the
 * feed URL of a time-range selection.
 */
module Styling {
  import opened Wrappers

  /** The three magnitude buckets the list and the map share. */
  datatype Bucket = Low | Moderate | High

  /** Reference definition of the buckets: below 3, from 3 below 5, from 5 up. */
  function BucketOf(m: real): Bucket {
    if m < 3.0 then Low else if m < 5.0 then Moderate else High
  }

  /** `getMagnitudeClass` (script.js:465-469). */
  function MagnitudeClass(m: real): (c: string)
    ensures c == "low" <==> m < 3.0
    ensures c == "moderate" <==> 3.0 <= m < 5.0
    ensures c == "high" <==> 5.0 <= m
  {
    if m < 3.0 then "low"
    else if m < 5.0 then "moderate"
    else "high"
  }

  datatype MarkerStyle = MarkerStyle(radius: nat, color: string)

  const Green: string := "#27ae60"
  const Orange: string := "#f39c12"
  const Red: string := "#e74c3c"

  /** Radius and fill colour chosen in `createEarthquakeMarker` (script.js:249-259). */
  function StyleFor(m: real): (s: MarkerStyle)
    ensures s.radius == 8 <==> m < 3.0
    ensures s.radius == 12 <==> 3.0 <= m < 5.0
    ensures s.radius == 16 <==> 5.0 <= m
    ensures s.color == Green <==> s.radius == 8
    ensures s.color == Orange <==> s.radius == 12
    ensures s.color == Red <==> s.radius == 16
  {
    var radius, color :=
      if m < 3.0 then 8
      else if m < 5.0 then 12
      else 16,
      if m < 3.0 then Green
      else if m < 5.0 then Orange
      else Red;
    MarkerStyle(radius, color)
  }

  function ClassName(b: Bucket): string {
    match b
    case Low => "low"
    case Moderate => "moderate"
    case High => "high"
  }

  function BucketStyle(b: Bucket): MarkerStyle {
    match b
    case Low => MarkerStyle(8, Green)
    case Moderate => MarkerStyle(12, Orange)
    case High => MarkerStyle(16, Red)
  }

  /**
   * The two copies of the thresholds agree: the badge class and the marker
   * style of any magnitude come from the same bucket.
   */
  lemma ClassAndStyleAgree(m: real)
    ensures MagnitudeClass(m) == ClassName(BucketOf(m))
    ensures StyleFor(m) == BucketStyle(BucketOf(m))
  {
  }

  /** A larger magnitude never gets a smaller marker. */
  lemma RadiusMonotone(m: real, m': real)
    requires m <= m'
    ensures StyleFor(m).radius <= StyleFor(m').radius
  {
  }

  /** How long ago an event happened, as `formatTime` buckets it. */
  datatype Elapsed = JustNow | MinutesAgo(minutes: int) | HoursAgo(hours: int) | ClockTime

  const MinuteMs: int := 60000
  const HourMs: int := 3600000
  const DayMs: int := 86400000

  /**
   * The bucketing of `formatTime` (script.js:471-486) for an event at
   * `timestamp` seen at `now`, both epoch milliseconds. JavaScript's
   * `Math.floor(x / 60000)` is Dafny's `/` here, since the divisor is
   * positive. `ClockTime` stands for the locale-formatted clock time, which
   * this model leaves out.
   */
  function RelativeTime(timestamp: int, now: int): (e: Elapsed)
    ensures e.JustNow? <==> now - timestamp < MinuteMs
    ensures e.MinutesAgo? ==>
      1 <= e.minutes < 60 && e.minutes * MinuteMs <= now - timestamp < (e.minutes + 1) * MinuteMs
    ensures e.HoursAgo? ==>
      1 <= e.hours < 24 && e.hours * HourMs <= now - timestamp < (e.hours + 1) * HourMs
    ensures e.ClockTime? <==> DayMs <= now - timestamp
  {
    var diffMinutes := (now - timestamp) / MinuteMs;
    if diffMinutes < 1 then JustNow
    else if diffMinutes < 60 then MinutesAgo(diffMinutes)
    else if diffMinutes < 1440 then HoursAgo(diffMinutes / 60)
    else ClockTime
  }

  const FeedBase: string := "https://earthquake.usgs.gov/earthquakes/feed/v1.0/summary/"

  /** The summary feed of all earthquakes over `period`. */
  function FeedFile(period: string): string {
    FeedBase + "all_" + period + ".geojson"
  }

  /** The `apiUrls` table (script.js:13-19): "all" reuses the month feed. */
  const ApiUrls: map<string, string> := map[
    "hour" := FeedFile("hour"),
    "day" := FeedFile("day"),
    "week" := FeedFile("week"),
    "month" := FeedFile("month"),
    "all" := FeedFile("month")]

  /** The feed period a time-range selection asks for. */
  function Period(selection: string): string {
    if selection == "" then "day"
    else if selection == "all" then "month"
    else selection
  }

  /**
   * `this.apiUrls[timeRange]` with `timeRange = selection || 'day'`
   * (script.js:75-76); None where the table has no entry (`undefined`).
   */
  function FeedUrl(selection: string): (u: Option<string>)
    ensures u.Some? <==> Period(selection) in {"hour", "day", "week", "month"}
    ensures u.Some? ==> u.value == FeedFile(Period(selection))
  {
    var timeRange := if selection == "" then "day" else selection;
    if timeRange in ApiUrls then Some(ApiUrls[timeRange]) else None
  }

  /** "all" is an alias of "month", and no selection means "day". */
  lemma FeedAliases()
    ensures FeedUrl("all") == FeedUrl("month")
    ensures FeedUrl("") == FeedUrl("day")
    ensures FeedUrl("hour") != FeedUrl("day") && FeedUrl("day") != FeedUrl("week")
    ensures FeedUrl("week") != FeedUrl("month")
    ensures FeedUrl("hour") != FeedUrl("week") && FeedUrl("hour") != FeedUrl("month")
    ensures FeedUrl("day") != FeedUrl("month")
  {
    // "hour" and "week" have the same length; they differ in their first letter.
    assert FeedFile("hour")[|FeedBase| + 4] == 'h' && FeedFile("week")[|FeedBase| + 4] == 'w';
  }
}

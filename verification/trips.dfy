/** The trip record and the columns `load_data` derives from it
    (start hour, weekday, daytime flag, duration, route label). */
module Trips {
  import opened Results

  const SecondsPerMinute := 60
  const SecondsPerHour := 3600
  const SecondsPerDay := 86400

  type Hour = h: int | 0 <= h < 24

  datatype Weekday = Monday | Tuesday | Wednesday | Thursday | Friday | Saturday | Sunday

  /** One row of the trip CSV after `pd.to_datetime`. Timestamps count whole seconds
      from 0001-01-01 00:00:00 in the proleptic Gregorian calendar, the calendar of
      Python's date ordinals; coordinates are missing where the CSV cell is empty. */
  datatype Trip = Trip(
    startStation: string,
    endStation: string,
    startedAt: int,
    endedAt: int,
    userType: string,
    startLat: Option<real>,
    startLng: Option<real>)

  /** `Timestamp.date()`, as a date ordinal (0001-01-01 is day 1). */
  function DateOf(ts: int): (d: int)
    ensures (d - 1) * SecondsPerDay <= ts < d * SecondsPerDay
  {
    ts / SecondsPerDay + 1
  }

  /** Later timestamps never fall on earlier dates. */
  lemma DateOfMonotonic(a: int, b: int)
    requires a <= b
    ensures DateOf(a) <= DateOf(b)
  {
  }

  /** `started_at.dt.date`. */
  function StartDate(t: Trip): (d: int)
    ensures (d - 1) * SecondsPerDay <= t.startedAt < d * SecondsPerDay
  {
    DateOf(t.startedAt)
  }

  /** `started_at.dt.hour`: the hour of the day the trip starts in. */
  function StartHour(t: Trip): (h: Hour)
    ensures (StartDate(t) - 1) * SecondsPerDay + h * SecondsPerHour <= t.startedAt
    ensures t.startedAt < (StartDate(t) - 1) * SecondsPerDay + (h + 1) * SecondsPerHour
  {
    (t.startedAt % SecondsPerDay) / SecondsPerHour
  }

  /** Position of a day in the week, Monday first. */
  function WeekdayIndex(w: Weekday): (i: nat)
    ensures i < 7
  {
    match w
    case Monday => 0
    case Tuesday => 1
    case Wednesday => 2
    case Thursday => 3
    case Friday => 4
    case Saturday => 5
    case Sunday => 6
  }

  const Week: seq<Weekday> := [Monday, Tuesday, Wednesday, Thursday, Friday, Saturday, Sunday]

  /** The weekday of a date ordinal: day 1 (0001-01-01) was a Monday. */
  function WeekdayOf(ordinal: int): (w: Weekday)
    ensures WeekdayIndex(w) == (ordinal - 1) % 7
  {
    Week[(ordinal - 1) % 7]
  }

  function NextWeekday(w: Weekday): Weekday {
    Week[(WeekdayIndex(w) + 1) % 7]
  }

  /** The remainder steps the way the days do. */
  lemma RemainderStep(n: int)
    ensures n % 7 == ((n - 1) % 7 + 1) % 7
    ensures (n + 6) % 7 == (n - 1) % 7
  {
    var q := (n - 1) / 7;
    var k := (n - 1) % 7;
    assert n - 1 == 7 * q + k;
    assert n + 6 == 7 * (q + 1) + k;
    if k < 6 {
      assert n == 7 * q + (k + 1);
    } else {
      assert n == 7 * (q + 1);
    }
  }

  /** The weekday listed at position `i` of the week has position `i`. */
  lemma WeekPosition(i: int)
    requires 0 <= i < 7
    ensures WeekdayIndex(Week[i]) == i
  {
  }

  /** Consecutive dates fall on consecutive weekdays, and the week repeats every 7 days. */
  lemma WeekdaysAdvance(ordinal: int)
    ensures WeekdayOf(ordinal + 1) == NextWeekday(WeekdayOf(ordinal))
    ensures WeekdayOf(ordinal + 7) == WeekdayOf(ordinal)
  {
    var k := (ordinal - 1) % 7;
    RemainderStep(ordinal);
    WeekPosition(k);
    assert WeekdayOf(ordinal) == Week[k];
    assert NextWeekday(Week[k]) == Week[(k + 1) % 7];
    assert WeekdayOf(ordinal + 1) == Week[ordinal % 7];
    assert WeekdayOf(ordinal + 7) == Week[(ordinal + 6) % 7];
  }

  /** 2020-04-01, the first day of the April 2020 trip file, has ordinal 737516 and was a Wednesday. */
  lemma AprilFirst2020()
    ensures WeekdayOf(737516) == Wednesday
  {
  }

  /** `started_at.dt.day_name()`. */
  function DayOfWeek(t: Trip): (w: Weekday)
    ensures WeekdayIndex(w) == (StartDate(t) + 6) % 7
  {
    WeekdayOf(StartDate(t))
  }

  /** The English day name `day_name()` prints. */
  function DayName(w: Weekday): string {
    match w
    case Monday => "Monday"
    case Tuesday => "Tuesday"
    case Wednesday => "Wednesday"
    case Thursday => "Thursday"
    case Friday => "Friday"
    case Saturday => "Saturday"
    case Sunday => "Sunday"
  }

  /** The category list the weekly chart declares, in its declared order. */
  const DayCategories: seq<string> :=
    ["Monday", "Tuesday", "Wednesday", "Thursday", "Friday", "Saturday", "Sunday"]

  /** The categorical code of each day name is the weekday's position, Monday first. */
  lemma CategoryCodes(w: Weekday)
    ensures DayCategories[WeekdayIndex(w)] == DayName(w)
    ensures forall v :: DayName(v) == DayName(w) ==> v == w
  {
  }

  /** Lexicographic order on strings, the order a plain `sort_values` would use. */
  predicate LexLess(a: string, b: string) {
    if |a| == 0 then |b| > 0
    else if |b| == 0 then false
    else if a[0] != b[0] then a[0] < b[0]
    else LexLess(a[1..], b[1..])
  }

  /** Alphabetical order puts Friday before Monday; the category order does not. */
  lemma CategoryOrderIsNotAlphabetical()
    ensures LexLess(DayName(Friday), DayName(Monday))
    ensures WeekdayIndex(Monday) < WeekdayIndex(Friday)
  {
  }

  /** `ended_at - started_at` in seconds. */
  function DurationSeconds(t: Trip): int {
    t.endedAt - t.startedAt
  }

  /** `ride_duration`: `(ended_at - started_at).dt.total_seconds() / 60`. */
  function RideMinutes(t: Trip): (m: real)
    ensures m * 60.0 == DurationSeconds(t) as real
  {
    (t.endedAt - t.startedAt) as real / 60.0
  }

  /** Comparing `ride_duration` with a whole number of minutes is the same as comparing
      the duration in seconds with that many minutes' worth of seconds. */
  lemma MinuteThresholds(t: Trip, minutes: int)
    ensures RideMinutes(t) <= minutes as real <==> DurationSeconds(t) <= minutes * SecondsPerMinute
    ensures RideMinutes(t) < minutes as real <==> DurationSeconds(t) < minutes * SecondsPerMinute
  {
  }

  /** Seconds since midnight of the start date. */
  function SecondOfDay(t: Trip): (sec: int)
    ensures 0 <= sec < SecondsPerDay
  {
    t.startedAt - (StartDate(t) - 1) * SecondsPerDay
  }

  /** `start_hour.between(6, 18)`: both ends inclusive, so the trip starts between
      06:00:00 and 18:59:59. */
  predicate IsDaytime(t: Trip)
    ensures IsDaytime(t) <==> 6 * SecondsPerHour <= SecondOfDay(t) < 19 * SecondsPerHour
  {
    6 <= StartHour(t) <= 18
  }

  /** The two halves of the day the duration charts compare. */
  datatype Period = Day | Night

  /** The time-of-day label of the durations tab: `6 <= hour < 18` is day, so a trip is
      a day trip when it starts between 06:00:00 and 17:59:59. */
  function TimeOfDay(t: Trip): (p: Period)
    ensures p == Day <==> 6 * SecondsPerHour <= SecondOfDay(t) < 18 * SecondsPerHour
  {
    if 6 <= StartHour(t) < 18 then Day else Night
  }

  /** The relabelling `{True: "Day", False: "Night"}` of the daytime flag. */
  function FlagPeriod(isDaytime: bool): Period {
    if isDaytime then Day else Night
  }

  function ShortLabel(p: Period): string {
    match p
    case Day => "Day"
    case Night => "Night"
  }

  function LongLabel(p: Period): string {
    match p
    case Day => "Day (6am-6pm)"
    case Night => "Night (6pm-6am)"
  }

  /** The daytime flag and the time-of-day label disagree exactly on trips starting
      in hour 18: those are daytime by the flag and night by the label. */
  lemma DaytimeBoundaries(t: Trip)
    ensures IsDaytime(t) <==> 6 <= StartHour(t) <= 18
    ensures TimeOfDay(t) == Day <==> 6 <= StartHour(t) < 18
    ensures FlagPeriod(IsDaytime(t)) != TimeOfDay(t) <==> StartHour(t) == 18
    ensures TimeOfDay(t) == Day ==> IsDaytime(t)
  {
  }

  /** A trip starting at 18:30 on 2020-04-01 is daytime by the flag, night by the label. */
  lemma HalfPastSix()
    ensures var t := Trip("A", "B", 737515 * SecondsPerDay + 18 * SecondsPerHour + 1800,
                          737515 * SecondsPerDay + 19 * SecondsPerHour, "member", None, None);
            StartDate(t) == 737516 && StartHour(t) == 18 && IsDaytime(t) && TimeOfDay(t) == Night
  {
  }

  const Arrow: string := " \U{2192} "

  /** `start_station_name + " → " + end_station_name`. */
  function RouteLabel(start: string, end: string): (r: string)
    ensures |r| == |start| + |Arrow| + |end|
    ensures r[..|start|] == start
    ensures r[|start|..|start| + |Arrow|] == Arrow
    ensures r[|start| + |Arrow|..] == end
  {
    start + Arrow + end
  }

  function UserTypeOf(t: Trip): string {
    t.userType
  }

  /** The `route` column. */
  function Route(t: Trip): (r: string)
    ensures |r| == |t.startStation| + |Arrow| + |t.endStation|
    ensures r[..|t.startStation|] == t.startStation
    ensures r[|t.startStation|..|t.startStation| + |Arrow|] == Arrow
    ensures r[|t.startStation| + |Arrow|..] == t.endStation
  {
    RouteLabel(t.startStation, t.endStation)
  }

  /** Station names that themselves contain the arrow make two different station pairs
      share one route label. */
  lemma RouteLabelCollision()
    ensures ("A" + Arrow + "B", "C") != ("A", "B" + Arrow + "C")
    ensures RouteLabel("A" + Arrow + "B", "C") == RouteLabel("A", "B" + Arrow + "C")
  {
  }
}

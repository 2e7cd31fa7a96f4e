/** The patterns tab, identical in both dashboards: rides per weekday and per hour,
    each split by user type. */
module Patterns {
  import opened Grouping
  import opened Trips

  /** The weekly chart's grouping key `(day_of_week, member_casual)`. */
  function WeekdayKey(t: Trip): (Weekday, string) {
    (DayOfWeek(t), t.userType)
  }

  /** Position of the day name in the declared category list. */
  function WeekdayRank(g: Group<(Weekday, string)>): nat {
    WeekdayIndex(g.key.0)
  }

  /** `groupby(['day_of_week', 'member_casual']).size()` sorted on the ordered categorical
      Monday..Sunday: one row per (weekday, user type) that occurs, Monday rows first. */
  function WeeklyCounts(rows: seq<Trip>): (r: seq<Group<(Weekday, string)>>)
    ensures IsCountTable(r, rows, WeekdayKey)
    ensures forall i, j :: 0 <= i < j < |r| ==> WeekdayIndex(r[i].key.0) <= WeekdayIndex(r[j].key.0)
  {
    var g := GroupCount(rows, WeekdayKey);
    var r := OrderByRank(g, WeekdayRank, 7);
    RearrangedCountTable(r, g, rows, WeekdayKey);
    r
  }

  /** In rows ordered by weekday, a Monday row comes before every Friday row. */
  lemma MondayRowsFirst(r: seq<Group<(Weekday, string)>>)
    requires forall i, j :: 0 <= i < j < |r| ==> WeekdayIndex(r[i].key.0) <= WeekdayIndex(r[j].key.0)
    ensures forall i, j :: 0 <= i < |r| && 0 <= j < |r| && r[i].key.0 == Monday && r[j].key.0 == Friday ==> i < j
  {
  }

  /** A Friday row never precedes a Monday row, although "Friday" sorts before "Monday". */
  lemma MondayBeforeFriday(rows: seq<Trip>)
    ensures var r := WeeklyCounts(rows);
            forall i, j :: 0 <= i < |r| && 0 <= j < |r| && r[i].key.0 == Monday && r[j].key.0 == Friday ==> i < j
    ensures LexLess(DayName(Friday), DayName(Monday))
  {
    CategoryOrderIsNotAlphabetical();
    MondayRowsFirst(WeeklyCounts(rows));
  }

  /** The hourly chart's grouping key `(start_hour, member_casual)`. */
  function HourKey(t: Trip): (Hour, string) {
    (StartHour(t), t.userType)
  }

  function HourRank(g: Group<(Hour, string)>): nat {
    g.key.0
  }

  /** `groupby(['start_hour', 'member_casual']).size()`: one row per (hour, user type)
      that occurs, hours ascending. */
  function HourlyCounts(rows: seq<Trip>): (r: seq<Group<(Hour, string)>>)
    ensures IsCountTable(r, rows, HourKey)
    ensures forall i, j :: 0 <= i < j < |r| ==> r[i].key.0 <= r[j].key.0
  {
    var g := GroupCount(rows, HourKey);
    var r := OrderByRank(g, HourRank, 24);
    RearrangedCountTable(r, g, rows, HourKey);
    r
  }
}

/** The durations-and-routes tab of the five-tab dashboard (`scripts/app.py`). */
module AppDurations {
  import opened Sequences
  import opened Grouping
  import opened Trips

  const DurationSampleSize: nat := 5000
  const HistogramMaxMinutes: nat := 120
  const OutlierMaxMinutes: nat := 180
  const TopRouteCount: nat := 15

  /** `filtered_df if len(filtered_df) < 5000 else filtered_df.sample(5000)`. */
  function DurationSample(rows: seq<Trip>, draw: seq<bool>): (r: seq<Trip>)
    requires |rows| >= DurationSampleSize ==> IsDraw(draw, |rows|, DurationSampleSize)
    ensures |r| == Min(|rows|, DurationSampleSize)
    ensures multiset(r) <= multiset(rows)
    ensures |rows| <= DurationSampleSize ==> r == rows
  {
    Cap(rows, DurationSampleSize, draw)
  }

  predicate InHistogramRange(t: Trip) {
    DurationSeconds(t) <= HistogramMaxMinutes * SecondsPerMinute
  }

  /** `dur_df[dur_df['ride_duration'] <= 120]`: exactly the trips of at most two hours. */
  function HistogramRows(rows: seq<Trip>): (r: seq<Trip>)
    ensures IsSubsequence(r, rows)
    ensures forall i :: 0 <= i < |r| ==> RideMinutes(r[i]) <= HistogramMaxMinutes as real
    ensures forall t :: multiset(r)[t] == if RideMinutes(t) <= HistogramMaxMinutes as real then multiset(rows)[t] else 0
  {
    var r := Filter(rows, InHistogramRange);
    forall t ensures InHistogramRange(t) <==> RideMinutes(t) <= HistogramMaxMinutes as real {
      MinuteThresholds(t, HistogramMaxMinutes);
    }
    r
  }

  predicate NotOutlier(t: Trip) {
    DurationSeconds(t) <= OutlierMaxMinutes * SecondsPerMinute
  }

  /** `df[df['trip_duration_min'] <= 180]`: exactly the trips of at most three hours. */
  function TrimOutliers(rows: seq<Trip>): (r: seq<Trip>)
    ensures IsSubsequence(r, rows)
    ensures forall i :: 0 <= i < |r| ==> RideMinutes(r[i]) <= OutlierMaxMinutes as real
    ensures forall t :: multiset(r)[t] == if RideMinutes(t) <= OutlierMaxMinutes as real then multiset(rows)[t] else 0
  {
    var r := Filter(rows, NotOutlier);
    forall t ensures NotOutlier(t) <==> RideMinutes(t) <= OutlierMaxMinutes as real {
      MinuteThresholds(t, OutlierMaxMinutes);
    }
    r
  }

  /** The key `(time_of_day, member_casual)` of the duration statistics and ride split. */
  function PeriodKey(t: Trip): (Period, string) {
    (TimeOfDay(t), t.userType)
  }

  /** The `count` column of the day/night duration statistics. They are computed over the
      whole loaded table, not the filtered one, after dropping trips over three hours:
      one row per (time of day, user type), counting the remaining trips. */
  function DurationStatCounts(table: seq<Trip>): (r: seq<Group<(Period, string)>>)
    ensures IsCountTable(r, TrimOutliers(table), PeriodKey)
    ensures Total(r) == |TrimOutliers(table)|
  {
    GroupCount(TrimOutliers(table), PeriodKey)
  }

  /** The boxplot's rows: the sampled trips of at most three hours, each with its
      time-of-day label. */
  function BoxplotRows(sample: seq<Trip>): (r: seq<(string, Trip)>)
    ensures |r| == |TrimOutliers(sample)|
    ensures forall i :: 0 <= i < |r| ==> RideMinutes(r[i].1) <= OutlierMaxMinutes as real
    ensures forall i :: 0 <= i < |r| ==> r[i].1 == TrimOutliers(sample)[i] && r[i].1 in sample
    ensures forall i :: 0 <= i < |r| ==> r[i].0 == LongLabel(TimeOfDay(r[i].1))
  {
    var kept := TrimOutliers(sample);
    forall i | 0 <= i < |kept| ensures kept[i] in sample {
      assert kept[i] in multiset(kept);
    }
    seq(|kept|, i requires 0 <= i < |kept| => (LongLabel(TimeOfDay(kept[i])), kept[i]))
  }

  /** The top-routes key `(start_station_name, end_station_name)`. */
  function StationPair(t: Trip): (string, string) {
    (t.startStation, t.endStation)
  }

  /** `groupby([start, end]).size().sort_values('count', ascending=False).head(15)`. */
  function TopStationPairs(sample: seq<Trip>): (r: seq<Group<(string, string)>>)
    ensures |r| <= TopRouteCount
    ensures CountsNonIncreasing(r)
    ensures DistinctKeys(r)
    ensures forall j :: 0 <= j < |r| ==> r[j].count == CountKey(sample, StationPair, r[j].key) && r[j].count > 0
    ensures |r| < TopRouteCount ==> forall i :: 0 <= i < |sample| ==> HasKey(r, StationPair(sample[i]))
    ensures forall i, j :: 0 <= i < |sample| && 0 <= j < |r| && !HasKey(r, StationPair(sample[i]))
              ==> CountKey(sample, StationPair, StationPair(sample[i])) <= r[j].count
  {
    TopCounts(sample, StationPair, TopRouteCount)
  }

  /** One bar of the top-routes chart: the label added after ranking, and the count. */
  function TopRouteBars(top: seq<Group<(string, string)>>): (r: seq<Group<string>>)
    ensures |r| == |top|
    ensures forall i :: 0 <= i < |r| ==> r[i].count == top[i].count
    ensures forall i :: 0 <= i < |r| ==> r[i].key == RouteLabel(top[i].key.0, top[i].key.1)
    ensures forall i :: 0 <= i < |r| ==> |r[i].key| == |top[i].key.0| + |Arrow| + |top[i].key.1|
    ensures forall i :: 0 <= i < |r| ==> r[i].key[..|top[i].key.0|] == top[i].key.0
    ensures forall i :: 0 <= i < |r| ==> r[i].key[|top[i].key.0| + |Arrow|..] == top[i].key.1
  {
    seq(|top|, i requires 0 <= i < |top| => Group(RouteLabel(top[i].key.0, top[i].key.1), top[i].count))
  }

  /** One bar of the day/night ride split: rides in that period and the user type's
      rides in both periods (`rides_total`, merged in by user type). */
  datatype RideShare = RideShare(period: Period, userType: string, rides: nat, ridesTotal: nat)

  function OfType(u: string): ((Period, string)) -> bool {
    (k: (Period, string)) => k.1 == u
  }

  /** `groupby('member_casual')['rides'].sum()` for one user type. */
  function TypeTotal(g: seq<Group<(Period, string)>>, u: string): nat {
    TotalWhere(g, OfType(u))
  }

  /** A user type's day rides and night rides together are all its rides. */
  lemma {:induction false} DayPlusNight(rows: seq<Trip>, u: string)
    ensures CountKey(rows, PeriodKey, (Day, u)) + CountKey(rows, PeriodKey, (Night, u))
         == CountKey(rows, UserTypeOf, u)
  {
    if |rows| > 0 {
      DayPlusNight(rows[..|rows| - 1], u);
    }
  }

  lemma {:induction false} TypeTotalCountsType(rows: seq<Trip>, u: string)
    ensures CountKeyWhere(rows, PeriodKey, OfType(u)) == CountKey(rows, UserTypeOf, u)
  {
    if |rows| > 0 {
      TypeTotalCountsType(rows[..|rows| - 1], u);
    }
  }

  /** The day/night rides table: one row per (time of day, user type) present, with
      the period's rides and the type's total over both periods. */
  function DayNightRides(sample: seq<Trip>): (r: seq<RideShare>)
    ensures forall i :: 0 <= i < |r| ==> r[i].rides == CountKey(sample, PeriodKey, (r[i].period, r[i].userType))
    ensures forall i :: 0 <= i < |r| ==> 0 < r[i].rides <= r[i].ridesTotal
    ensures forall i :: 0 <= i < |r| ==> r[i].ridesTotal == CountKey(sample, UserTypeOf, r[i].userType)
    ensures forall i :: 0 <= i < |sample| ==>
              exists j :: 0 <= j < |r| && (r[j].period, r[j].userType) == PeriodKey(sample[i])
    ensures forall i, j :: 0 <= i < j < |r| ==> (r[i].period, r[i].userType) != (r[j].period, r[j].userType)
  {
    var ks := UniqueKeys(sample, PeriodKey);
    var g := GroupsOf(sample, PeriodKey, ks);
    var r := seq(|g|, i requires 0 <= i < |g| => Share(g, g[i]));
    RidesFacts(sample, ks, g, r);
    r
  }

  lemma RidesFacts(sample: seq<Trip>, ks: seq<(Period, string)>, g: seq<Group<(Period, string)>>, r: seq<RideShare>)
    requires ks == UniqueKeys(sample, PeriodKey)
    requires g == GroupsOf(sample, PeriodKey, ks)
    requires |r| == |g|
    requires forall i :: 0 <= i < |g| ==> r[i] == Share(g, g[i])
    ensures forall i :: 0 <= i < |r| ==> r[i].rides == CountKey(sample, PeriodKey, (r[i].period, r[i].userType))
    ensures forall i :: 0 <= i < |r| ==> 0 < r[i].rides <= r[i].ridesTotal
    ensures forall i :: 0 <= i < |r| ==> r[i].ridesTotal == CountKey(sample, UserTypeOf, r[i].userType)
    ensures forall i :: 0 <= i < |sample| ==>
              exists j :: 0 <= j < |r| && (r[j].period, r[j].userType) == PeriodKey(sample[i])
    ensures forall i, j :: 0 <= i < j < |r| ==> (r[i].period, r[i].userType) != (r[j].period, r[j].userType)
  {
    forall i | 0 <= i < |r|
      ensures r[i].ridesTotal == CountKey(sample, UserTypeOf, r[i].userType)
      ensures r[i].rides <= r[i].ridesTotal
    {
      TypeTotalIsTypeCount(sample, ks, g[i].key.1);
      RidesWithinTotal(sample, g[i].key);
    }
    assert g == GroupCount(sample, PeriodKey);
    SharesFollowGroups(sample, g, r);
  }

  /** No (time of day, user type) group holds more rides than the user type has. */
  lemma RidesWithinTotal(sample: seq<Trip>, k: (Period, string))
    ensures CountKey(sample, PeriodKey, k) <= CountKey(sample, UserTypeOf, k.1)
  {
    DayPlusNight(sample, k.1);
    match k.0
    case Day => assert k == (Day, k.1);
    case Night => assert k == (Night, k.1);
  }

  /** The merged row of one group. */
  function Share(g: seq<Group<(Period, string)>>, x: Group<(Period, string)>): RideShare {
    RideShare(x.key.0, x.key.1, x.count, TypeTotal(g, x.key.1))
  }

  lemma TypeTotalIsTypeCount(sample: seq<Trip>, ks: seq<(Period, string)>, u: string)
    requires ks == UniqueKeys(sample, PeriodKey)
    ensures TypeTotal(GroupsOf(sample, PeriodKey, ks), u) == CountKey(sample, UserTypeOf, u)
  {
    GroupTotals(sample, PeriodKey, ks, OfType(u));
    TypeTotalCountsType(sample, u);
  }

  lemma SharesFollowGroups(sample: seq<Trip>, g: seq<Group<(Period, string)>>, r: seq<RideShare>)
    requires IsCountTable(g, sample, PeriodKey)
    requires |r| == |g|
    requires forall i :: 0 <= i < |g| ==> r[i] == Share(g, g[i])
    ensures forall i :: 0 <= i < |r| ==> r[i].rides == CountKey(sample, PeriodKey, (r[i].period, r[i].userType))
    ensures forall i :: 0 <= i < |r| ==> 0 < r[i].rides
    ensures forall i :: 0 <= i < |sample| ==>
              exists j :: 0 <= j < |r| && (r[j].period, r[j].userType) == PeriodKey(sample[i])
    ensures forall i, j :: 0 <= i < j < |r| ==> (r[i].period, r[i].userType) != (r[j].period, r[j].userType)
  {
    assert forall i :: 0 <= i < |r| ==> (r[i].period, r[i].userType) == g[i].key;
    forall i | 0 <= i < |sample|
      ensures exists j :: 0 <= j < |r| && (r[j].period, r[j].userType) == PeriodKey(sample[i])
    {
      var j :| 0 <= j < |g| && g[j].key == PeriodKey(sample[i]);
      assert (r[j].period, r[j].userType) == g[j].key;
    }
  }
}

/** The overview tab's data, identical in both dashboards: the 1000-row sample and the
    tables behind the trip-count donut and the day/night sunburst. */
module Donuts {
  import opened Sequences
  import opened Grouping
  import opened Trips

  const OverviewSampleSize: nat := 1000
  /** Day/night groups with at most this many trips are not charted. */
  const MinGroupSize: nat := 10

  /** `filtered_df if len(filtered_df) < 1000 else filtered_df.sample(1000)`. */
  function OverviewSample(rows: seq<Trip>, draw: seq<bool>): (r: seq<Trip>)
    requires |rows| >= OverviewSampleSize ==> IsDraw(draw, |rows|, OverviewSampleSize)
    ensures |r| == Min(|rows|, OverviewSampleSize)
    ensures multiset(r) <= multiset(rows)
    ensures |rows| <= OverviewSampleSize ==> r == rows
  {
    Cap(rows, OverviewSampleSize, draw)
  }

  /** `member_casual.value_counts()`: trips per user type, most frequent first; every
      count is positive and together they count every trip. */
  function TripCounts(rows: seq<Trip>): (r: seq<Group<string>>)
    ensures IsCountTable(r, rows, UserTypeOf)
    ensures forall i :: 0 <= i < |r| ==> r[i].count > 0
    ensures Total(r) == |rows|
    ensures CountsNonIncreasing(r)
  {
    ValueCounts(rows, UserTypeOf)
  }

  /** The sunburst's grouping key `(member_casual, is_daytime)`. */
  function DaytimeKey(t: Trip): (string, bool) {
    (t.userType, IsDaytime(t))
  }

  predicate LargeGroup(g: Group<(string, bool)>) {
    g.count > MinGroupSize
  }

  /** `groupby(['member_casual', 'is_daytime']).size()` keeping only counts above 10. */
  function DayNightGroups(rows: seq<Trip>): (r: seq<Group<(string, bool)>>)
    ensures DistinctKeys(r)
    ensures forall i :: 0 <= i < |r| ==> r[i].count == CountKey(rows, DaytimeKey, r[i].key)
    ensures forall i :: 0 <= i < |r| ==> r[i].count > MinGroupSize
    ensures forall i :: 0 <= i < |rows| && CountKey(rows, DaytimeKey, DaytimeKey(rows[i])) > MinGroupSize
              ==> HasKey(r, DaytimeKey(rows[i]))
    ensures Total(r) <= |rows|
  {
    var g := GroupCount(rows, DaytimeKey);
    var r := Filter(g, LargeGroup);
    TotalFilterAtMost(g, LargeGroup);
    LargeGroupsKept(rows, g, r);
    r
  }

  lemma LargeGroupsKept(rows: seq<Trip>, g: seq<Group<(string, bool)>>, r: seq<Group<(string, bool)>>)
    requires IsCountTable(g, rows, DaytimeKey)
    requires forall i :: 0 <= i < |r| ==> LargeGroup(r[i])
    requires forall x :: multiset(r)[x] == if LargeGroup(x) then multiset(g)[x] else 0
    ensures DistinctKeys(r)
    ensures forall i :: 0 <= i < |r| ==> r[i].count == CountKey(rows, DaytimeKey, r[i].key)
    ensures forall i :: 0 <= i < |r| ==> r[i].count > MinGroupSize
    ensures forall i :: 0 <= i < |rows| && CountKey(rows, DaytimeKey, DaytimeKey(rows[i])) > MinGroupSize
              ==> HasKey(r, DaytimeKey(rows[i]))
  {
    assert multiset(r) <= multiset(g);
    DistinctUnderSubMultiset(r, g);
    forall i | 0 <= i < |r| ensures r[i].count == CountKey(rows, DaytimeKey, r[i].key) {
      assert r[i] in multiset(r);
      assert r[i] in multiset(g);
    }
    forall i | 0 <= i < |rows| && CountKey(rows, DaytimeKey, DaytimeKey(rows[i])) > MinGroupSize
      ensures HasKey(r, DaytimeKey(rows[i]))
    {
      var j :| 0 <= j < |g| && g[j].key == DaytimeKey(rows[i]);
      assert g[j] in multiset(g);
      assert g[j] in multiset(r);
      var q :| 0 <= q < |r| && r[q] == g[j];
    }
  }
}

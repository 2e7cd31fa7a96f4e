/** The tables of the four-tab dashboard (`scripts/divy.py`) that differ from the
    five-tab one: the violin cut-off, the relabelled day/night means and the top
    routes counted by their `route` label. */
module DivyCharts {
  import opened Sequences
  import opened Grouping
  import opened Trips
  import opened Donuts
  import opened AppDurations
  import opened Results

  const ViolinMaxMinutes: nat := 120

  predicate UnderTwoHours(t: Trip) {
    DurationSeconds(t) < ViolinMaxMinutes * SecondsPerMinute
  }

  /** `filtered_df[filtered_df['ride_duration'] < 120]`: exactly the trips strictly
      shorter than two hours. */
  function ViolinRows(rows: seq<Trip>): (r: seq<Trip>)
    ensures IsSubsequence(r, rows)
    ensures forall i :: 0 <= i < |r| ==> RideMinutes(r[i]) < ViolinMaxMinutes as real
    ensures forall t :: multiset(r)[t] == if RideMinutes(t) < ViolinMaxMinutes as real then multiset(rows)[t] else 0
  {
    var r := Filter(rows, UnderTwoHours);
    forall t ensures UnderTwoHours(t) <==> RideMinutes(t) < ViolinMaxMinutes as real {
      MinuteThresholds(t, ViolinMaxMinutes);
    }
    r
  }

  /** The violin's strict cut-off and the histogram's inclusive one differ only on
      trips of exactly two hours: without such trips both keep the same rows in the
      same order. */
  lemma {:induction false} ViolinMatchesHistogram(rows: seq<Trip>)
    requires forall i :: 0 <= i < |rows| ==> DurationSeconds(rows[i]) != ViolinMaxMinutes * SecondsPerMinute
    ensures ViolinRows(rows) == HistogramRows(rows)
  {
    if |rows| > 0 {
      var init := rows[..|rows| - 1];
      ViolinMatchesHistogram(init);
      assert rows == init + [rows[|rows| - 1]];
    }
  }

  /** A trip of exactly two hours reaches the histogram of the five-tab dashboard but
      not the violin of the four-tab one. */
  lemma ExactlyTwoHours()
    ensures var t := Trip("A", "B", 0, ViolinMaxMinutes * SecondsPerMinute, "casual", None, None);
            ViolinRows([t]) == [] && HistogramRows([t]) == [t]
  {
    var t := Trip("A", "B", 0, ViolinMaxMinutes * SecondsPerMinute, "casual", None, None);
    assert multiset(ViolinRows([t]))[t] == 0;
    assert multiset(HistogramRows([t]))[t] == 1;
  }

  /** One bar group of the day/night means chart: the group key and the label the flag
      is replaced by. The mean itself is not modelled. */
  datatype DaytimeRow = DaytimeRow(userType: string, isDaytime: bool, timeOfDay: string)

  function DaytimeRowOf(k: (string, bool)): DaytimeRow {
    DaytimeRow(k.0, k.1, ShortLabel(FlagPeriod(k.1)))
  }

  /** `groupby(['member_casual', 'is_daytime'])['ride_duration'].mean().reset_index()` with
      `time_of_day = is_daytime.replace({True: "Day", False: "Night"})`: one row per
      (user type, flag) pair present, labelled "Day" exactly when the flag is set. */
  function DaytimeMeanRows(rows: seq<Trip>): (r: seq<DaytimeRow>)
    ensures forall j :: 0 <= j < |r| ==> (r[j].timeOfDay == "Day" <==> r[j].isDaytime)
    ensures forall j :: 0 <= j < |r| ==> r[j].timeOfDay == "Day" || r[j].timeOfDay == "Night"
    ensures forall j :: 0 <= j < |r| ==> CountKey(rows, DaytimeKey, (r[j].userType, r[j].isDaytime)) > 0
    ensures forall i :: 0 <= i < |rows| ==>
              exists j :: 0 <= j < |r| && (r[j].userType, r[j].isDaytime) == DaytimeKey(rows[i])
    ensures forall i, j :: 0 <= i < j < |r| ==> (r[i].userType, r[i].isDaytime) != (r[j].userType, r[j].isDaytime)
  {
    var ks := UniqueKeys(rows, DaytimeKey);
    var r := seq(|ks|, j requires 0 <= j < |ks| => DaytimeRowOf(ks[j]));
    forall i | 0 <= i < |rows|
      ensures exists j :: 0 <= j < |r| && (r[j].userType, r[j].isDaytime) == DaytimeKey(rows[i])
    {
      var j :| 0 <= j < |ks| && ks[j] == DaytimeKey(rows[i]);
      assert (r[j].userType, r[j].isDaytime) == ks[j];
    }
    r
  }

  /** A trip starting in hour 18 is averaged into a "Day" bar of the means chart, while
      the five-tab dashboard's day/night split counts it as night. */
  lemma EighteenHundredIsDayBar(rows: seq<Trip>, i: nat)
    requires i < |rows| && StartHour(rows[i]) == 18
    ensures TimeOfDay(rows[i]) == Night
    ensures exists j :: 0 <= j < |DaytimeMeanRows(rows)|
              && (DaytimeMeanRows(rows)[j].userType, DaytimeMeanRows(rows)[j].isDaytime) == DaytimeKey(rows[i])
              && DaytimeMeanRows(rows)[j].timeOfDay == "Day"
  {
    DaytimeBoundaries(rows[i]);
    var r := DaytimeMeanRows(rows);
    var j :| 0 <= j < |r| && (r[j].userType, r[j].isDaytime) == DaytimeKey(rows[i]);
    assert r[j].isDaytime;
  }

  const TopRouteLabelCount: nat := 15

  /** `route.value_counts().head(15)`: at most 15 labels, most frequent first, and no
      label left out is more frequent than a label kept. */
  function TopRouteLabels(rows: seq<Trip>): (r: seq<Group<string>>)
    ensures |r| <= TopRouteLabelCount
    ensures CountsNonIncreasing(r)
    ensures DistinctKeys(r)
    ensures forall j :: 0 <= j < |r| ==> r[j].count == CountKey(rows, Route, r[j].key) && r[j].count > 0
    ensures |r| < TopRouteLabelCount ==> forall i :: 0 <= i < |rows| ==> HasKey(r, Route(rows[i]))
    ensures forall i, j :: 0 <= i < |rows| && 0 <= j < |r| && !HasKey(r, Route(rows[i]))
              ==> CountKey(rows, Route, Route(rows[i])) <= r[j].count
  {
    TopCounts(rows, Route, TopRouteLabelCount)
  }

  /** Counting by label merges station pairs whose labels coincide, so a label counts
      at least the trips of each station pair that carries it. */
  lemma {:induction false} LabelCountsCoverPairs(rows: seq<Trip>, a: string, b: string)
    ensures CountKey(rows, StationPair, (a, b)) <= CountKey(rows, Route, RouteLabel(a, b))
  {
    if |rows| > 0 {
      LabelCountsCoverPairs(rows[..|rows| - 1], a, b);
    }
  }

  /** Two single trips between different station pairs make one route with two trips. */
  lemma MergedRoute()
    ensures var rows := [Trip("A" + Arrow + "B", "C", 0, 60, "member", None, None),
                         Trip("A", "B" + Arrow + "C", 0, 60, "member", None, None)];
            && CountKey(rows, StationPair, ("A" + Arrow + "B", "C")) == 1
            && CountKey(rows, StationPair, ("A", "B" + Arrow + "C")) == 1
            && CountKey(rows, Route, RouteLabel("A", "B" + Arrow + "C")) == 2
  {
    var rows := [Trip("A" + Arrow + "B", "C", 0, 60, "member", None, None),
                 Trip("A", "B" + Arrow + "C", 0, 60, "member", None, None)];
    RouteLabelCollision();
    assert rows[..1] == [rows[0]];
    assert [rows[0]][..0] == [];
  }
}

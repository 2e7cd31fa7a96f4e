/** The map tab of both dashboards: start coordinates with missing values dropped,
    capped at 1000 points. */
module StartMap {
  import opened Results
  import opened Sequences
  import opened Trips
  import opened Grouping

  const MapSampleSize: nat := 1000

  /** One point of `st.map`: the renamed `lat` and `lon` columns. */
  datatype MapPoint = MapPoint(lat: real, lon: real)

  /** A row survives `dropna()` on the two coordinate columns. */
  predicate Located(t: Trip) {
    t.startLat.Some? && t.startLng.Some?
  }

  function PointOf(t: Trip): MapPoint
    requires Located(t)
  {
    MapPoint(t.startLat.value, t.startLng.value)
  }

  /** The start point of a row, or `None` when `dropna()` drops it. */
  function LocatedAt(t: Trip): Option<MapPoint> {
    if Located(t) then Some(PointOf(t)) else None
  }

  function IsPresent(o: Option<MapPoint>): bool {
    o.Some?
  }

  /** Number of rows with both coordinates. */
  function LocatedCount(rows: seq<Trip>): (n: nat)
    ensures n <= |rows|
  {
    CountKeyWhere(rows, LocatedAt, IsPresent)
  }

  /** The start points of the located rows, as a set. */
  ghost function StartPoints(rows: seq<Trip>): set<MapPoint> {
    set i | 0 <= i < |rows| && Located(rows[i]) :: PointOf(rows[i])
  }

  lemma StartPointsStep(rows: seq<Trip>)
    requires |rows| > 0
    ensures StartPoints(rows) == StartPoints(rows[..|rows| - 1])
              + (if Located(rows[|rows| - 1]) then {PointOf(rows[|rows| - 1])} else {})
  {
    var init := rows[..|rows| - 1];
    assert forall i :: 0 <= i < |init| ==> rows[i] == init[i];
  }

  /** `filtered_df[['start_lat', 'start_lng']].dropna().rename(...)`: one point per
      located row, and the points are exactly the start points of the located rows,
      each as often as a located row starts there. */
  function LocatedPoints(rows: seq<Trip>): (r: seq<MapPoint>)
    ensures |r| == LocatedCount(rows)
    ensures forall p :: p in r <==> p in StartPoints(rows)
    ensures forall p :: multiset(r)[p] == CountKey(rows, LocatedAt, Some(p))
  {
    if |rows| == 0 then []
    else
      var init := rows[..|rows| - 1];
      var last := rows[|rows| - 1];
      var rest := LocatedPoints(init);
      StartPointsStep(rows);
      if Located(last) then rest + [PointOf(last)] else rest
  }

  /** When every row has coordinates, no row is dropped. */
  lemma {:induction false} NothingDropped(rows: seq<Trip>)
    requires forall i :: 0 <= i < |rows| ==> Located(rows[i])
    ensures |LocatedPoints(rows)| == |rows|
  {
    if |rows| > 0 {
      NothingDropped(rows[..|rows| - 1]);
    }
  }

  /** `if len(map_data) > 1000: map_data = map_data.sample(1000)`, the random choice
      supplied as `draw`: at most 1000 points, each the start of a located trip. */
  function MapPoints(rows: seq<Trip>, draw: seq<bool>): (r: seq<MapPoint>)
    requires LocatedCount(rows) > MapSampleSize ==> IsDraw(draw, LocatedCount(rows), MapSampleSize)
    ensures |r| == Min(LocatedCount(rows), MapSampleSize)
    ensures multiset(r) <= multiset(LocatedPoints(rows))
    ensures LocatedCount(rows) <= MapSampleSize ==> r == LocatedPoints(rows)
    ensures forall j :: 0 <= j < |r| ==> r[j] in StartPoints(rows)
  {
    var points := LocatedPoints(rows);
    var r := if |points| > MapSampleSize then Select(points, draw) else points;
    forall j | 0 <= j < |r| ensures r[j] in StartPoints(rows) {
      assert r[j] in multiset(r);
      assert r[j] in points;
    }
    r
  }
}

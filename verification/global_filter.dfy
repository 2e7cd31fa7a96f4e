/** Loading the trip table and the global sidebar filter shared by both dashboards:
    the user-type multiselect and the inclusive date range. */
module GlobalFilter {
  import opened Results
  import opened Sequences
  import opened Grouping
  import opened Trips

  /** What `load_data` returns: the parsed table, or the column-less `pd.DataFrame()`
      its exception handler returns after showing the error. */
  datatype Table = Frame(rows: seq<Trip>) | Blank

  datatype Loaded = Loaded(table: Table, errorShown: bool)

  /** `csv` is the parsed file, or `None` when reading or parsing it raised. */
  function LoadData(csv: Option<seq<Trip>>): (r: Loaded)
    ensures r.errorShown <==> r.table.Blank?
    ensures csv.Some? ==> r.table == Frame(csv.value)
    ensures csv.None? ==> r.table == Blank
  {
    match csv
    case Some(rows) => Loaded(Frame(rows), false)
    case None => Loaded(Blank, true)
  }

  /** Ways the script stops before any chart: a column lookup on the blank table
      (`KeyError`), or a date range with fewer than two dates (`IndexError`). */
  datatype FilterError = MissingColumn | IncompleteDateRange

  /** The multiselect's options, also its default: `df['member_casual'].unique()`. */
  function UserTypeOptions(rows: seq<Trip>): (r: seq<string>)
    ensures NoDuplicates(r)
    ensures forall i :: 0 <= i < |rows| ==> rows[i].userType in r
    ensures forall j :: 0 <= j < |r| ==> exists i :: 0 <= i < |rows| && rows[i].userType == r[j]
  {
    var r := UniqueKeys(rows, UserTypeOf);
    forall j | 0 <= j < |r| ensures exists i :: 0 <= i < |rows| && rows[i].userType == r[j] {
      CountKeyOccurs(rows, UserTypeOf, r[j]);
    }
    r
  }

  /** `df['started_at'].min()`. */
  function EarliestStart(rows: seq<Trip>): (ts: int)
    requires |rows| > 0
    ensures forall i :: 0 <= i < |rows| ==> ts <= rows[i].startedAt
    ensures exists i :: 0 <= i < |rows| && rows[i].startedAt == ts
  {
    if |rows| == 1 then rows[0].startedAt
    else
      var m := EarliestStart(rows[..|rows| - 1]);
      assert forall i :: 0 <= i < |rows| - 1 ==> rows[i] == rows[..|rows| - 1][i];
      if rows[|rows| - 1].startedAt < m then rows[|rows| - 1].startedAt else m
  }

  /** `df['started_at'].max()`. */
  function LatestStart(rows: seq<Trip>): (ts: int)
    requires |rows| > 0
    ensures forall i :: 0 <= i < |rows| ==> rows[i].startedAt <= ts
    ensures exists i :: 0 <= i < |rows| && rows[i].startedAt == ts
  {
    if |rows| == 1 then rows[0].startedAt
    else
      var m := LatestStart(rows[..|rows| - 1]);
      assert forall i :: 0 <= i < |rows| - 1 ==> rows[i] == rows[..|rows| - 1][i];
      if rows[|rows| - 1].startedAt > m then rows[|rows| - 1].startedAt else m
  }

  /** The date picker's default `[min().date(), max().date()]`: every trip starts within
      it, and its ends are the dates of the first and last trip. */
  function DefaultDateRange(rows: seq<Trip>): (r: Option<seq<int>>)
    ensures r.Some? <==> |rows| > 0
    ensures r.Some? ==> |r.value| == 2
    ensures r.Some? ==> forall i :: 0 <= i < |rows| ==> r.value[0] <= StartDate(rows[i]) <= r.value[1]
    ensures r.Some? ==> exists i :: 0 <= i < |rows| && StartDate(rows[i]) == r.value[0]
    ensures r.Some? ==> exists i :: 0 <= i < |rows| && StartDate(rows[i]) == r.value[1]
  {
    if |rows| == 0 then None
    else
      var lo := EarliestStart(rows);
      var hi := LatestStart(rows);
      forall i | 0 <= i < |rows| ensures DateOf(lo) <= StartDate(rows[i]) <= DateOf(hi) {
        DateOfMonotonic(lo, rows[i].startedAt);
        DateOfMonotonic(rows[i].startedAt, hi);
      }
      Some([DateOf(lo), DateOf(hi)])
  }

  /** The row test of the global filter: the user type is selected and the start date
      lies in `lo..hi`, both ends included. */
  predicate Selected(t: Trip, members: seq<string>, lo: int, hi: int) {
    t.userType in members && lo <= StartDate(t) <= hi
  }

  /** `df[df.member_casual.isin(members) & (date >= date_range[0]) & (date <= date_range[1])]`. */
  function SelectTrips(table: Table, members: seq<string>, dateRange: seq<int>): (r: Result<seq<Trip>, FilterError>)
    ensures table.Blank? ==> r == Err(MissingColumn)
    ensures table.Frame? && |dateRange| < 2 ==> r == Err(IncompleteDateRange)
    ensures r.Ok? <==> table.Frame? && |dateRange| >= 2
    ensures r.Ok? ==> IsSubsequence(r.value, table.rows)
    ensures r.Ok? ==> forall i :: 0 <= i < |r.value| ==>
              r.value[i].userType in members && dateRange[0] <= StartDate(r.value[i]) <= dateRange[1]
    ensures r.Ok? ==> forall t :: multiset(r.value)[t] ==
                                  (if Selected(t, members, dateRange[0], dateRange[1]) then multiset(table.rows)[t] else 0)
  {
    match table
    case Blank => Err(MissingColumn)
    case Frame(rows) =>
      if |dateRange| < 2 then Err(IncompleteDateRange)
      else Ok(Filter(rows, t => Selected(t, members, dateRange[0], dateRange[1])))
  }

  /** With the widgets at their defaults (every user type, first to last date) the
      filter returns the loaded table unchanged. */
  lemma DefaultsKeepEveryTrip(rows: seq<Trip>)
    requires |rows| > 0
    ensures SelectTrips(Frame(rows), UserTypeOptions(rows), DefaultDateRange(rows).value) == Ok(rows)
  {
    var members := UserTypeOptions(rows);
    var range := DefaultDateRange(rows).value;
    var p := t => Selected(t, members, range[0], range[1]);
    assert forall i :: 0 <= i < |rows| ==> p(rows[i]);
    FilterKeepsAll(rows, p);
  }

  /** A reversed date range keeps no trip. */
  lemma ReversedRangeKeepsNothing(rows: seq<Trip>, members: seq<string>, dateRange: seq<int>)
    requires |dateRange| >= 2 && dateRange[0] > dateRange[1]
    ensures SelectTrips(Frame(rows), members, dateRange) == Ok([])
  {
  }
}

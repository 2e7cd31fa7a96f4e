# Divvy trip dashboards: the data layer

A Dafny model of the data transformations behind the two Streamlit dashboards of
the Divvy bike-share trip data for April 2020, `scripts/app.py` (five tabs) and
`scripts/divy.py` (four tabs). Both load one CSV of trips, derive a few columns per
trip, apply a global filter (user types and an inclusive date range) and draw
charts from counts over the filtered trips. The model covers that layer:

- `Trips` (`trips.dfy`): the parsed trip record and the derived columns: start date,
  start hour, weekday, duration, the `is_daytime` flag, the time-of-day label and
  the route label.
- `GlobalFilter` (`global_filter.dfy`): loading (success or the blank table shown
  after an error), the filter widgets' defaults and the filter itself.
- `Sequences` and `Grouping` (`sequences.dfy`, `grouping.dfy`): the dataframe
  primitives the scripts use, stated by what they mean over a `seq<Trip>`:
  - boolean-mask selection;
  - the `.sample(k)` size cap;
  - `unique`, `groupby(...).size()` and `value_counts`;
  - sort-descending-then-`head(k)`;
  - ordering by an ordered categorical.
- `Donuts`, `Patterns`, `AppDurations`, `StartMap` (`donuts.dfy`, `patterns.dfy`,
  `app_durations.dfy`, `start_map.dfy`): the tables behind each tab's charts.
- `DivyCharts` (`divy_charts.dfy`): where `divy.py` differs from `app.py`: the strict
  two-hour violin cut-off, the relabelled day/night means, and the top routes
  counted by route label rather than by station pair.
- `DonutGate` (`donut_gate.dfy`): the `donuts_loaded` / `donut_plots` session
  entries that make `divy.py` compute its donut charts once.
- `Results` (`results.dfy`): `Option` and `Result`.

Modelling choices:

- Timestamps are whole seconds from 0001-01-01 00:00, the epoch of Python's date
  ordinals.
  - A start date is the ordinal `startedAt / 86400 + 1` and the hour is
    `(startedAt % 86400) / 3600`.
  - Ordinal 1 was a Monday, so the weekday follows from the ordinal.
- Durations are integer seconds, so "at most 120 minutes" is "at most 7200 seconds".
  `Trips.MinuteThresholds` proves this agrees with comparing the real-valued quotient
  `(ended_at - started_at) / 60` with the threshold.
- `.sample(k)` is a caller-supplied draw: one flag per row, exactly `k` set. The
  sampled rows keep their table order.
- Groupby tables list keys in first-appearance order, not in pandas' sorted order
  (see "Left out"). The weekday table is ordered by its categorical weekday and the
  hourly table by hour; the count tables are sorted largest first, with ties in an
  unspecified order.
- Key functions are named functions (`UserTypeOf`, `DaytimeKey`, `PeriodKey`, `Route`,
  ...) so that contracts talk about the same grouping the code performs.

Two places where the code is inconsistent with itself, modelled as written:

- Both scripts compute the daytime flag as `start_hour.between(6, 18)`, which includes
  hour 18 (`scripts/app.py:21`, `scripts/divy.py:21`).
  - The durations tab's time-of-day labels, "Day (6am-6pm)" and "Day", use
    `6 <= x < 18`, which excludes it (`scripts/app.py:201-203`, `scripts/app.py:276`).
  - So an hour-18 trip is daytime by the flag and night by the label. The model keeps
    both definitions and proves exactly where they part (`Trips.DaytimeBoundaries`,
    `DivyCharts.EighteenHundredIsDayBar`).
- A failed load returns a blank `pd.DataFrame()` with no `member_casual` column. The
  multiselect's `df['member_casual']` (`scripts/app.py:81`) sits outside any `try`, so
  it raises `KeyError` and stops the script. The model returns `Err(MissingColumn)`
  from the filter.
- The durations tab's day/night duration statistics (`scripts/app.py:198-207`) are
  computed on the whole loaded table, not the filtered one. `AppDurations.DurationStatCounts`
  takes the loaded table.

## Model

| member | source | states |
|---|---|---|
| Trips.DateOf | scripts/app.py:89 | the date of a timestamp is the day whose 86400 seconds contain it |
| Trips.DateOfMonotonic | scripts/app.py:84-85 | later timestamps never fall on earlier dates |
| Trips.StartDate | scripts/app.py:89 | `started_at.dt.date`: the day containing the start |
| Trips.StartHour | scripts/app.py:19 | the start hour is in 0..23 and the start lies within that hour of its date |
| Trips.WeekdayOf | scripts/app.py:20 | the weekday's position, Monday first, is the day count since 0001-01-01 modulo 7 |
| Trips.WeekdaysAdvance | scripts/app.py:20 | consecutive dates have consecutive weekdays, and the week repeats every 7 days |
| Trips.AprilFirst2020 | scripts/app.py:20 | 2020-04-01 (ordinal 737516) is a Wednesday |
| Trips.CategoryCodes | scripts/app.py:132-135 | each day name sits in the category list at its weekday's position, and no two weekdays share a name |
| Trips.CategoryOrderIsNotAlphabetical | scripts/app.py:132-136 | Friday sorts before Monday alphabetically but after it in category order |
| Trips.DayOfWeek | scripts/app.py:20 | `day_name()` of the start: the weekday whose Monday-first position is the start date's day count since 0001-01-01 modulo 7 |
| Trips.RideMinutes | scripts/app.py:18 | `ride_duration` is the duration in minutes: 60 times it is the duration in seconds |
| Trips.IsDaytime | scripts/app.py:21 | the flag holds exactly for trips starting from 06:00:00 to 18:59:59 of their day |
| Trips.TimeOfDay | scripts/app.py:201-203 | the label is Day exactly for trips starting from 06:00:00 to 17:59:59 of their day (also `scripts/app.py:276`) |
| Trips.MinuteThresholds | scripts/app.py:18 | comparing `ride_duration` minutes with a whole number of minutes, with either `<=` or `<`, equals comparing seconds with 60 times that number |
| Trips.DaytimeBoundaries | scripts/app.py:21 | the flag holds exactly for hours 6..18, the label is Day exactly for hours 6..17, and they disagree exactly at hour 18 |
| Trips.HalfPastSix | scripts/app.py:201-203 | a trip starting at 18:30 on 2020-04-01 is daytime by the flag and night by the label |
| Trips.RouteLabel | scripts/app.py:23 | the label is the start name, the arrow, then the end name, each recoverable by position |
| Trips.Route | scripts/app.py:23 | a trip's route is its start station, the arrow, then its end station, each recoverable by position |
| Trips.RouteLabelCollision | scripts/app.py:23 | two different station pairs can share one route label |
| GlobalFilter.LoadData | scripts/app.py:13-27 | a parsed file becomes the table; a failure shows an error and yields the blank table, and only then |
| GlobalFilter.UserTypeOptions | scripts/app.py:81-82 | the options are the distinct user types, each occurring in the table, all of them covered |
| GlobalFilter.EarliestStart | scripts/app.py:84 | the minimum start time: at most every trip's, attained by one |
| GlobalFilter.LatestStart | scripts/app.py:85 | the maximum start time: at least every trip's, attained by one |
| GlobalFilter.DefaultDateRange | scripts/app.py:84-85 | the default range exists exactly for a non-empty table, contains every start date, and both ends are start dates |
| GlobalFilter.SelectTrips | scripts/app.py:87-91 | KeyError on the blank table and IndexError on a one-date range; otherwise the kept trips are the trips of a selected type with start date in the inclusive range, in table order, with their multiplicities |
| GlobalFilter.DefaultsKeepEveryTrip | scripts/app.py:81-91 | with the default widgets (every type, first to last date) the filter returns the whole table |
| GlobalFilter.ReversedRangeKeepsNothing | scripts/divy.py:87-91 | a reversed date range selects no trip |
| Sequences.Filter | scripts/app.py:87-91 | mask selection keeps exactly the rows satisfying the test, in order, with their multiplicities |
| Sequences.Select | scripts/app.py:362 | a draw keeps as many rows as flags set, a sub-multiset in table order, and all rows when every flag is set |
| Sequences.Cap | scripts/app.py:110 | the capped table has min(n, cap) rows drawn from the input, and is the input when n is at most cap |
| Grouping.UniqueKeys | scripts/app.py:81 | `unique()`: no key twice, every row's key present, each present key occurring |
| Grouping.GroupCount | scripts/app.py:60-61 | `groupby(...).size()` is a count table (distinct keys, each row's key present, each count the number of rows with that key, positive) whose counts sum to the number of rows |
| Grouping.GroupTotals | scripts/app.py:279 | summing a count table's counts over the keys satisfying a test counts the rows whose key satisfies it |
| Grouping.SortByCount | scripts/app.py:247 | the sort keeps the same groups and total and puts counts in non-increasing order |
| Grouping.TopByCount | scripts/app.py:247 | `head(k)` after the sort keeps min(n, k) groups in non-increasing order, and no group left out has a larger count than a group kept |
| Grouping.OrderByRank | scripts/app.py:136 | ordering by category code keeps the same rows and puts codes in non-decreasing order |
| Grouping.ValueCounts | scripts/app.py:37-38 | `value_counts()` is a count table summing to the row count, largest first |
| Grouping.TopCounts | scripts/app.py:246-247 | at most k distinct keys with their true positive counts, largest first; all keys when fewer than k; no key left out occurs more often than a key kept |
| Donuts.OverviewSample | scripts/app.py:110 | the overview sample has min(n, 1000) trips drawn from the filtered ones, and is all of them below 1000 |
| Donuts.TripCounts | scripts/app.py:37-38 | trips per user type: one positive count per type present, summing to the number of trips, largest first |
| Donuts.DayNightGroups | scripts/app.py:60-63 | one row per (user type, daytime flag) with more than 10 trips, with its true count; every such pair present; kept counts sum to at most the trip count |
| Patterns.WeeklyCounts | scripts/app.py:131-136 | a count table by (weekday, user type) whose rows run Monday to Sunday |
| Patterns.MondayBeforeFriday | scripts/divy.py:143-147 | a Monday row always precedes a Friday row, though alphabetical order would put Friday first |
| Patterns.HourlyCounts | scripts/app.py:145-146 | a count table by (hour 0..23, user type) with hours ascending |
| AppDurations.DurationSample | scripts/app.py:161 | the durations sample has min(n, 5000) trips drawn from the filtered ones, and is all of them below 5000 |
| AppDurations.HistogramRows | scripts/app.py:169 | the histogram keeps exactly the sampled trips of at most 120 minutes, in order |
| AppDurations.TrimOutliers | scripts/app.py:204 | exactly the trips of at most 180 minutes are kept, in order |
| AppDurations.DurationStatCounts | scripts/app.py:199-207 | the statistics' `count` column is a count table by (time of day, user type) over the whole table's trips of at most 180 minutes |
| AppDurations.BoxplotRows | scripts/app.py:315-321 | one boxplot row per sampled trip of at most 180 minutes, in sample order, labelled with its long time-of-day label |
| AppDurations.TopStationPairs | scripts/app.py:246-247 | at most 15 distinct station pairs with their true counts, largest first, no pair left out more frequent than a pair kept |
| AppDurations.TopRouteBars | scripts/app.py:248 | each bar keeps its count and its label is the route label of its station pair: start name, arrow, end name |
| AppDurations.DayPlusNight | scripts/app.py:278-279 | a user type's day rides plus its night rides are all its rides |
| AppDurations.RidesWithinTotal | scripts/app.py:281 | no period's rides exceed the user type's total, so the percentage is at most 100 |
| AppDurations.DayNightRides | scripts/app.py:274-280 | one row per (time of day, user type) present, distinct; its rides are its trip count and positive; its `rides_total` is the user type's trip count and at least its rides |
| StartMap.LocatedPoints | scripts/app.py:358-360 | one point per trip with both coordinates; the points are exactly those trips' start coordinates, each occurring as many times as a located trip starts there |
| StartMap.NothingDropped | scripts/app.py:359 | when every trip has coordinates, `dropna` drops none |
| StartMap.MapPoints | scripts/app.py:358-362 | at most 1000 points, min(located trips, 1000), each a located trip's start, and all of them when there are at most 1000 |
| DivyCharts.ViolinRows | scripts/divy.py:170 | the violin keeps exactly the trips strictly under 120 minutes, in order |
| DivyCharts.ViolinMatchesHistogram | scripts/divy.py:170 | without trips of exactly two hours, the violin's strict cut-off and the histogram's inclusive one keep the same trips |
| DivyCharts.ExactlyTwoHours | scripts/divy.py:170 | a trip of exactly 120 minutes is in the histogram and not in the violin |
| DivyCharts.DaytimeMeanRows | scripts/divy.py:179-181 | one row per (user type, daytime flag) present, distinct, labelled "Day" exactly when the flag is set and "Night" otherwise |
| DivyCharts.EighteenHundredIsDayBar | scripts/divy.py:181 | an hour-18 trip is averaged into a "Day" bar although its time-of-day label is night |
| DivyCharts.TopRouteLabels | scripts/divy.py:191 | at most 15 distinct route labels with their true counts, largest first, no label left out more frequent than a label kept |
| DivyCharts.LabelCountsCoverPairs | scripts/divy.py:191 | a route label counts at least the trips of every station pair that carries it |
| DivyCharts.MergedRoute | scripts/divy.py:23 | two single trips between different station pairs can count as one route with two trips |
| DonutGate.WithDefaults | scripts/divy.py:99-102 | missing entries become "not loaded" and an empty plot dictionary; present entries, each checked on its own, are kept unchanged |
| DonutGate.PlotsOf | scripts/divy.py:119-123 | the stored dictionary has exactly the keys total, avg, day_night, holding the three results |
| DonutGate.Visible | scripts/divy.py:127-132 | a column shows a chart exactly when its key is present and holds a figure |
| DonutGate.Columns | scripts/divy.py:126-132 | each of total, avg, day_night shows exactly when its key holds a figure, independently of the others, in that order; nothing else shows |
| DonutGate.Step | scripts/divy.py:113-134 | the charts are computed exactly when the button is pressed and not yet loaded, which sets the flag and stores the three plots; once loaded the session never changes; with neither, the click prompt shows |
| DonutGate.Run | scripts/divy.py:113-124 | a run of reruns computes at most once per rerun, and from a loaded session it never computes or changes the session |
| DonutGate.FirstPress | scripts/divy.py:113 | the first rerun on which the button was pressed, none before it |
| DonutGate.ComputedOnce | scripts/divy.py:113-124 | from a fresh session the donuts are computed at most once, on the first press, and the stored plots are those of that press |
| DonutGate.FirstChartsShown | scripts/divy.py:126-132 | the first press shows the charts that did not fail, in the order total, average, day/night |

## Left out

- Reading the CSV and parsing its timestamps: trips arrive parsed. A failed read is
  `None` in `GlobalFilter.LoadData`.
- Which rows `.sample` picks, and its shuffled output order: the draw is a parameter
  and survivors keep table order.
- Floating-point aggregates:
  - the average-duration donut's mean (`scripts/app.py:49`);
  - the duration statistics' mean, median, std and rounding (`scripts/app.py:205-209`);
  - the day/night mean durations (`scripts/divy.py:179-180`);
  - the percentage column (`scripts/app.py:281`).
- DaytimeMeanRows: does not carry the mean duration of each group, because it is a
  float mean; the groups and their labels are modelled.
- DurationStatCounts: models only the `count` column of the statistics table, because
  the others are float aggregates.
- Grouping.GroupCount: lists keys in first-appearance order, while pandas `groupby`
  sorts them. Only `Patterns.WeeklyCounts` and `Patterns.HourlyCounts` state an order
  (weekday, then hour ascending, the order `groupby`'s sort gives for hours); the
  other group tables are stated as sets of rows.
- Trips.RideMinutes: the quotient is exact, while `ride_duration` is a float64.
  Durations are whole seconds, 120 and 180 minutes are exact, and IEEE division is
  correctly rounded, so the thresholds compare the same way.
- Grouping.SortByCount: the order among groups with equal counts is unspecified,
  because pandas' default sort is not stable.
- Plotly chart construction and styling, Streamlit layout and widgets, `st.error`
  messages, and `st.cache_data` memoisation: presentation and framework behaviour.
  The chart functions' results enter `DonutGate` as parameters.
- The demand-prediction tab's images (`scripts/app.py:371-376`): file I/O.
- The date picker on an empty table, whose defaults are `NaT`: no date exists to
  model, so `GlobalFilter.DefaultDateRange` returns `None`.
- Missing station names (`NaN`), whose route label is `NaN` and which `groupby` drops:
  station names are always present in the model.
- The React pages (`src/*.jsx`, `src/App.js`, `src/index.js`, `script.js`):
  presentation and network calls with no data logic.

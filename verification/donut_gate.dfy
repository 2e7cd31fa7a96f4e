/** The load-once gate of the four-tab dashboard's overview: two session-state entries
    make the three donut charts compute on the first button press and never again.
    Every rerun of the script is one `Step`; the chart functions' results on that
    rerun's sample are supplied, since the charts themselves are not modelled. */
module DonutGate {
  import opened Results

  /** What the three chart functions return on one rerun; `None` where a function
      caught an exception and returned `None`. */
  datatype Donuts<F> = Donuts(total: Option<F>, avg: Option<F>, dayNight: Option<F>)

  /** The two session-state entries; `None` while the entry has never been set. */
  datatype Session<F> = Session(donutsLoaded: Option<bool>, donutPlots: Option<map<string, Option<F>>>)

  /** What the overview tab shows: the charts drawn, or the prompt to click. */
  datatype Screen<F> = Charts(shown: seq<F>) | ClickPrompt

  datatype Rerun<F> = Rerun(session: Session<F>, computed: bool, screen: Screen<F>)

  /** A rerun triggered by the browser, with whether the button was pressed on it and
      what the chart functions would return on it. */
  datatype Event<F> = Event(pressed: bool, donuts: Donuts<F>)

  const PlotKeys: set<string> := {"total", "avg", "day_night"}

  /** A browser session before its first rerun. */
  function Fresh<F>(): Session<F> {
    Session(None, None)
  }

  predicate Loaded<F>(s: Session<F>) {
    s.donutsLoaded == Some(true)
  }

  predicate Initialised<F>(s: Session<F>) {
    s.donutsLoaded.Some? && s.donutPlots.Some?
  }

  /** The defaults set when an entry is missing: not loaded, no plots. Entries already
      present are kept. */
  function WithDefaults<F>(s: Session<F>): (r: Session<F>)
    ensures Initialised(r)
    ensures Initialised(s) ==> r == s
    ensures s.donutsLoaded.Some? ==> r.donutsLoaded == s.donutsLoaded
    ensures s.donutsLoaded.None? ==> r.donutsLoaded == Some(false)
    ensures s.donutPlots.None? ==> r.donutPlots == Some(map[])
    ensures s.donutPlots.Some? ==> r.donutPlots == s.donutPlots
  {
    Session(Some(ValueOr(s.donutsLoaded, false)), Some(ValueOr(s.donutPlots, map[])))
  }

  /** The plots dictionary stored after computing. */
  function PlotsOf<F>(d: Donuts<F>): (m: map<string, Option<F>>)
    ensures m.Keys == PlotKeys
    ensures m["total"] == d.total && m["avg"] == d.avg && m["day_night"] == d.dayNight
  {
    map["total" := d.total, "avg" := d.avg, "day_night" := d.dayNight]
  }

  /** `donut_plots.get(key)` followed by the truthiness test: the figure, when the key
      is present and holds one. */
  function Visible<F>(plots: map<string, Option<F>>, key: string): (r: seq<F>)
    ensures |r| <= 1
    ensures |r| == 1 <==> key in plots && plots[key].Some?
    ensures |r| == 1 ==> r[0] == plots[key].value
  {
    if key in plots && plots[key].Some? then [plots[key].value] else []
  }

  /** The three columns, left to right. */
  function Columns<F>(plots: map<string, Option<F>>): (r: seq<F>)
    ensures |r| <= 3
    ensures forall i :: 0 <= i < |r| ==> exists k :: k in PlotKeys && k in plots && plots[k] == Some(r[i])
    ensures "total" in plots && plots["total"].Some? ==> |r| > 0 && r[0] == plots["total"].value
    ensures (forall k :: k in PlotKeys ==> k in plots && plots[k].Some?) ==> |r| == 3
    ensures |r| == |Visible(plots, "total")| + |Visible(plots, "avg")| + |Visible(plots, "day_night")|
    ensures "avg" in plots && plots["avg"].Some? ==> r[|Visible(plots, "total")|] == plots["avg"].value
    ensures "day_night" in plots && plots["day_night"].Some? ==> r[|r| - 1] == plots["day_night"].value
  {
    Visible(plots, "total") + Visible(plots, "avg") + Visible(plots, "day_night")
  }

  /** One rerun of the overview tab. */
  function Step<F>(s: Session<F>, e: Event<F>): (r: Rerun<F>)
    ensures Initialised(r.session)
    ensures r.computed <==> e.pressed && !Loaded(s)
    ensures r.computed ==> r.session == Session(Some(true), Some(PlotsOf(e.donuts)))
    ensures r.computed ==> r.session.donutPlots.value.Keys == PlotKeys
    ensures Loaded(r.session) <==> e.pressed || Loaded(s)
    ensures !r.computed ==> r.session == WithDefaults(s)
    ensures Loaded(s) && Initialised(s) ==> r.session == s
    ensures r.screen == ClickPrompt <==> !e.pressed && !Loaded(s)
    ensures r.screen.Charts? ==> r.screen.shown == Columns(r.session.donutPlots.value)
  {
    var s0 := WithDefaults(s);
    if e.pressed || s0.donutsLoaded.value then
      var computed := !s0.donutsLoaded.value;
      var s1 := if computed then Session(Some(true), Some(PlotsOf(e.donuts))) else s0;
      Rerun(s1, computed, Charts(Columns(s1.donutPlots.value)))
    else
      Rerun(s0, false, ClickPrompt)
  }

  /** The session after a run of reruns, with the number of reruns that computed. */
  datatype History<F> = History(session: Session<F>, computations: nat)

  function Run<F>(s: Session<F>, events: seq<Event<F>>): (h: History<F>)
    ensures h.computations <= |events|
    ensures Loaded(s) && Initialised(s) ==> h.session == s && h.computations == 0
  {
    if |events| == 0 then History(s, 0)
    else
      var h := Run(s, events[..|events| - 1]);
      var r := Step(h.session, events[|events| - 1]);
      History(r.session, h.computations + (if r.computed then 1 else 0))
  }

  /** The index of the first rerun on which the button was pressed. */
  function FirstPress<F>(events: seq<Event<F>>): (r: Option<nat>)
    ensures r.Some? ==> r.value < |events| && events[r.value].pressed
    ensures r.Some? ==> forall i :: 0 <= i < r.value ==> !events[i].pressed
    ensures r.None? ==> forall i :: 0 <= i < |events| ==> !events[i].pressed
  {
    if |events| == 0 then None
    else
      var init := events[..|events| - 1];
      var first := FirstPress(init);
      if first.Some? then Some(first.value)
      else if events[|events| - 1].pressed then Some(|events| - 1)
      else None
  }

  /** From a fresh browser session, the donuts are computed at most once: on the first
      press, and the plots stored then are the plots of every later rerun. Without a
      press the session only holds its defaults. */
  lemma {:induction false} ComputedOnce<F>(events: seq<Event<F>>)
    requires |events| > 0
    ensures Run(Fresh(), events).computations <= 1
    ensures FirstPress(events).None? ==>
              Run(Fresh(), events).computations == 0
              && Run(Fresh<F>(), events).session == Session(Some(false), Some(map[]))
    ensures FirstPress(events).Some? ==>
              Run(Fresh(), events).computations == 1
              && Run(Fresh<F>(), events).session
                 == Session(Some(true), Some(PlotsOf(events[FirstPress(events).value].donuts)))
  {
    var init := events[..|events| - 1];
    var last := events[|events| - 1];
    if |init| == 0 {
    } else {
      ComputedOnce(init);
      assert forall i :: 0 <= i < |init| ==> events[i] == init[i];
    }
  }

  /** The first rerun pressing the button shows the three charts it computed, those
      that did not fail, in the order total, average, day/night. */
  lemma FirstChartsShown<F>(s: Session<F>, e: Event<F>)
    requires e.pressed && !Loaded(s)
    ensures Step(s, e).screen == Charts(
              (if e.donuts.total.Some? then [e.donuts.total.value] else [])
              + (if e.donuts.avg.Some? then [e.donuts.avg.value] else [])
              + (if e.donuts.dayNight.Some? then [e.donuts.dayNight.value] else []))
  {
  }
}

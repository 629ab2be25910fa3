# Timeline reveal filter of the Maidan scroll map

The page tells the story of the killings on Maidan, February 2014, as the
reader scrolls. Each killing is a circle on an overlay above the map. Every
circle starts hidden (opacity 0). Waypoint handlers, one per text section,
call `showKilling(start, end, announce)` and `hideKilling(date)`:

- `hideKilling(date)` hides every circle timed strictly after `date`.
- `showKilling` first hides everything after `end`. It then gives opacity 0.5
  to every circle timed in `[start, end]`, both ends included. When `announce`
  is set, it also pops up each such circle's label: the victim's name up to
  its first space.

This project models that filter, the table of 41 reveal windows in scroll
order, and the small pure helpers next to them:

- the initial camp colour of a circle;
- the id lookup of `attackLine` and `morph`;
- the initial zoom chosen from the window width.

Modules, one per component:

- `Timestamps`: a `"%Y-%m-%d %H:%M:%S"` timestamp as its six fields. `Key` is
  an integer that orders well-formed timestamps field by field. For real
  calendar dates this is the order of the instants they denote.
- `Markers`: the killing record (time, name, camp tag `tabir`), the two
  opacity states, the initial fill and stroke colours, and the label text.
- `Timeline`: the opacity states after hide and show, written as functions of
  the old states, and the labels a show announces. It also holds the theory of
  replaying an ordered schedule of windows.
- `Circles`: the class `Dots`. It holds the killing data and an array of
  opacities. Its methods `Hide` and `Show` update that array in place, with
  loop invariants, and are proved equal to the `Timeline` functions.
- `Schedule`: the literal window table, the proof that it is ordered, and what
  that order implies when the reader scrolls down and back up.
- `Lookup`: features by `properties.id`. This covers attackLine's geometries
  and morph's shape replacement.
- `Zoom`: `zoom_size` in tenths of a zoom level.

The model states what the code does, including where it differs from what
one might expect:

- `showKilling` keeps the earlier reveals. It does not reveal "exactly the
  window".
- `showKilling` pops up one label per revealed circle, not one label per call.
- `hideKilling(t1)` keeps a circle timed exactly `t1`, because its test is a
  strict "later than" (`ThreeKillings`).
- Going up, the reveals lag one window behind the way down. A handler's `up`
  branch runs as the reader leaves its section for the one above, so between
  the anchors of windows j and j + 1 the reader going up sees windows 1..j + 1
  revealed, where going down they saw 1..j (`UpwardLag`).
- `morph` does not silently skip an id the snapshot lacks. It sets that
  shape's path to the rendering of an empty list of features.

The table's neighbouring windows are one second apart, with three exceptions:

- the nearly four weeks between 14:00:00 on 23 January, where section one's
  window ends, and 10:00:00 on 18 February, where section six's starts
  (`WinterGap`);
- the minute after 14:30:00 on 18 February (`MinuteGaps`);
- the minute after 19:59:00 on 18 February (`MinuteGaps`).

A killing timed inside one of these gaps is never revealed.

## Model

| member | source | states |
|---|---|---|
| Timestamps.Key | js/maidan.js:288-304 | no contract; the value `parseTime` gives a timestamp, as far as the comparisons at lines 292 and 304 use it; characterised by `KeyOrder` |
| Timestamps.KeyOrder | js/maidan.js:288-292 | for well-formed timestamps, comparing keys is comparing them field by field, and equal keys mean equal timestamps |
| Markers.Fill | js/maidan.js:241-244 | no contract; the initial fill colour, blue on the protesters' side ("maidan" or "civil"), magenta otherwise |
| Markers.Stroke | js/maidan.js:246-249 | no contract; the initial stroke colour, light blue on the protesters' side, magenta otherwise |
| Markers.FirstToken | js/maidan.js:318-320 | the label is a prefix of the name, contains no space, and is followed by a space or by the end of the name |
| Markers.FirstTokenUnique | js/maidan.js:318-320 | any space-free prefix followed by a space or the end is the label, so those properties define `split(" ")[0]` |
| Timeline.AllHidden | js/maidan.js:251 | the initial state has every circle hidden |
| Timeline.HideState | js/maidan.js:290-294 | no contract; the opacities after `hideKilling`; characterised by `ShowEffect`, `HideHide` and `Circles.Dots.Hide` |
| Timeline.RevealState | js/maidan.js:303-305 | no contract; the opacities after the reveal step of `showKilling`; characterised by `ShowEffect` |
| Timeline.ShowState | js/maidan.js:299-305 | no contract; the opacities after `showKilling`; characterised by `ShowEffect` and `ShowIdempotent` |
| Timeline.Replay | js/maidan.js:456-1144 | no contract; the opacities after the handlers' successive `showKilling` calls; characterised by `ReplayUnion`, `ReapplyRestores` and `HideRestores` |
| Timeline.ShowEffect | js/maidan.js:299-305 | after showKilling(d1, d2), a circle in [d1, d2] is revealed and a circle after d2 is hidden; an earlier circle keeps its state, so reveals accumulate |
| Timeline.ShowIdempotent | js/maidan.js:299-305 | showing the same window twice gives the same opacities as showing it once |
| Timeline.HideHide | js/maidan.js:290-294 | hide(a) then hide(b) equals hiding after the earlier of a and b |
| Timeline.Hits | js/maidan.js:303-305 | the circles the show filter selects, as ascending indices: each lies in the window, and every circle in the window is listed |
| Timeline.Labels | js/maidan.js:316-321 | with announce, one label per selected circle in data order, each the first token of the name; without announce, none |
| Timeline.ThreeKillings | js/maidan.js:290-305 | for killings at t1 < t2 < t3 from all hidden, showing [t1, t2] reveals the first two; hiding after t1 then hides only the second |
| Timeline.ThreeKillingsLabels | js/maidan.js:316-321 | the same show with announce set pops up the labels of both revealed killings, in data order |
| Timeline.OrderedPairwise | js/maidan.js:456-1144 | in an ordered schedule, every window ends before any later window starts |
| Timeline.ReplayUnion | js/maidan.js:251-305 | from all hidden, showing an ordered schedule's windows in turn reveals exactly the circles in one of the windows |
| Timeline.GapUncovered | js/maidan.js:292-305 | a time between two consecutive windows of an ordered schedule lies in no window |
| Timeline.ReapplyRestores | js/maidan.js:299-305 | after windows 1..k, showing an earlier window j again leaves exactly windows 1..j revealed |
| Timeline.HideRestores | js/maidan.js:290-294 | after windows 1..k, hiding after the end of window j leaves exactly windows 1..j revealed |
| Circles.Dots.constructor | js/maidan.js:236-251 | one circle per killing, all at opacity 0 |
| Circles.Dots.Hide | js/maidan.js:290-294 | in place: every circle later than the date is hidden and every other circle is unchanged, which equals HideState |
| Circles.Dots.Show | js/maidan.js:299-323 | in place: window revealed, later circles hidden, earlier ones unchanged (ShowState); it returns exactly Labels |
| Schedule.Windows | js/maidan.js:456-1144 | no contract; the 41 `showKilling` windows in handler order; characterised by `WindowsOrdered` and `WindowsDisjoint` |
| Schedule.WindowsOrdered | js/maidan.js:453-1144 | the 41 windows, in handler order, have well-formed timestamps, each has start <= end, and each ends before the next one starts |
| Schedule.WindowsDisjoint | js/maidan.js:456-1144 | every window ends before any later one starts, so no time lies in two windows and scrolling down announces a killing at most once |
| Schedule.ScrollDown | js/maidan.js:453-1144 | scrolling down through the first k windows reveals exactly the killings inside them |
| Schedule.ScrollBackUp | js/maidan.js:453-1144 | scrolling back up past the anchor of window j's section, as its handler fires `up` and the reader moves to the section above, leaves exactly windows 1..j revealed |
| Schedule.SectionFiveUp | js/maidan.js:507-514 | the hideKilling of section five, run as the reader scrolls up past its anchor into section four, leaves exactly the first window revealed, however far down the reader had been |
| Schedule.UpwardLag | js/maidan.js:521-574 | a killing at 13:00:00 on 18 February, in section eleven's window, is hidden just above section eleven's anchor on the way down, and revealed there when the reader comes back up from further down |
| Schedule.WinterGap | js/maidan.js:456-521 | killings after the end of section one's window and before the start of section six's lie in no window |
| Schedule.MinuteGaps | js/maidan.js:620-747 | killings in the minute after 14:30:00 (between sections sixteen and seventeen, lines 620-632) or after 19:59:00 (between sections twenty-eight and twenty-nine, lines 739-747) on 18 February lie in no window |
| Schedule.OrderedConcat | js/maidan.js:453-1144 | two ordered schedules, the first ending before the second starts, form an ordered schedule |
| Schedule.ChainedOrdered | js/maidan.js:453-1144 | the neighbour-by-neighbour check of the table yields the full order and well-formed timestamps |
| Lookup.Positions | js/maidan.js:339-341 | the positions of the features the filter keeps: ascending, each carrying the id, and every feature carrying it listed |
| Lookup.Matching | js/maidan.js:339-341 | the filter returns the features at `Positions`, in that order, each once: exactly the features with the id, in list order |
| Lookup.MatchingHead | js/maidan.js:339-342 | when the filtered list is non-empty, its head is the first feature of the list that carries the id |
| Lookup.FirstWithId | js/maidan.js:339-342 | `newLine[0]` is undefined exactly when no feature has the id; otherwise it is the first feature carrying the id |
| Lookup.AttackLineGeometries | js/maidan.js:334-343 | one entry per requested id, in request order, each the first feature with that id; all entries are defined exactly when every id has a feature |
| Lookup.Morph | js/maidan.js:407-419 | fails exactly when the snapshot is missing and the list is non-empty; otherwise each drawn shape with a requested id takes that id's matching snapshot features, and every other shape is unchanged, until the map next moves |
| Zoom.InitialZoom | js/maidan.js:4-4 | the zoom is one of 13.5, 14, 14.4 and 14.6: 13.5 exactly up to 768 pixels, 14 exactly above 768 up to 1280, 14.4 exactly above 1280 up to 1440, and 14.6 exactly beyond 1440 |
| Zoom.InitialZoomMonotone | js/maidan.js:4-4 | the initial zoom does not decrease as the window gets wider |

## Left out

- Map construction, sources, layers, paint and filter expressions, `showBuildings` and `setFilter`: their meaning is the map library's.
- The camera `flyTo` and its zoom scaling: this is floating-point camera animation.
- The overlay projection and path rendering: these are floating-point projection. `Morph` records which features a shape is drawn from, not its path.
- The camp colours: only the initial fill and stroke (js/maidan.js:241-249) are modelled, as plain definitions. Section seventy-eight turns every circle white going down and sets the protesters' side to #9ebcda and #bfd3e6 going up (js/maidan.js:1173-1196); that recolouring is visual and not modelled.
- The radius pulse transitions, the glow filter and the tooltip: these are purely visual.
- Popup DOM creation and the jQuery fades: labels are an emitted sequence of strings. Popups with fixed text in the handlers are not modelled.
- Video playback (`playVideo`, `stopVideo`): this is media-element manipulation.
- `setTimeout`-delayed actions and their races with later scrolling: this is timing, not sequential logic.
- The waypoint scroll-detection library: the schedule lemmas take scroll order as the table order.
- `d3.timeParse`: timestamps are given as fields. Time zones and malformed strings are not modelled, and `Key` orders timestamps field by field rather than equalling the parsed instant.
- `WellFormed` bounds the day of the month by 31 and not by that month's length. An impossible date such as 2014-02-30, which the parser rolls over to 2 March, is therefore ordered before 1 March by `Key`. Every date in the window table is a real date.
- `map_center` (js/maidan.js:5), a two-way choice of float coordinates.
- Lookup.AttackLineGeometries: the TypeError raised when drawing an undefined entry is stated as "some entry is None", not modelled as an abort.
- Lookup.Morph: the new path is recorded as the list of matching features. What d3 draws for a list with no features or several is not modelled.
- Lookup.Morph: the contract holds only until the map next moves. `morph` ends with `updatePosition(features)` (js/maidan.js:421), which registers map-event handlers that are never removed (js/maidan.js:373-395). On every later map event, such as the camera flight started at js/maidan.js:748, they redraw every shape whose id occurs in the snapshot, listed or not, each from a single feature's path, with the last feature of that id winning; handlers from earlier calls fire too. None of that is modelled.
- Lookup.Morph: ids are assumed to be plain CSS identifiers. `d3.select("#" + id)` (js/maidan.js:416) reads "a b" as a descendant selector and throws on an id that starts with a digit.
- Lookup.Morph and Lookup.AttackLineGeometries: `morph_data` and `protestline_data` are assumed to be loaded. They arrive asynchronously (js/maidan.js:328-330, js/maidan.js:400-403), and a call before they do fails.
- Ids are strings. The filters at js/maidan.js:340 and js/maidan.js:413 use JavaScript's loose `==`, so a numeric id in the data would match its string form in the page but not in the model.
- Circles.Dots.constructor: the killings are loaded asynchronously (js/maidan.js:228). A handler that fires before they arrive reveals nothing, and the circles created afterwards all start hidden. In the model the constructor always runs before any hide or show.

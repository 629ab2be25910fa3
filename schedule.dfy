/** The reveal windows of the narrative: the showKilling calls of the
    waypoint handlers, in the order their sections follow each other down
    the page, and what follows from their order. */
module Schedule {
  import opened Timestamps
  import opened Markers
  import opened Timeline

  /** showKilling(start, finish, announce) of each waypoint handler, in
      scroll order, in six stretches of the page. */
  const Windows: seq<Window> := Stretch1 + Stretch2 + Stretch3 + Stretch4 + Stretch5 + Stretch6

  /** Sections one to eighteen. */
  const Stretch1: seq<Window> := [
      Window(Stamp(2014, 1, 1, 14, 0, 0), Stamp(2014, 1, 23, 14, 0, 0), false), // #one (js/maidan.js:456)
      Window(Stamp(2014, 2, 18, 10, 0, 0), Stamp(2014, 2, 18, 12, 10, 0), true), // #six (js/maidan.js:521)
      Window(Stamp(2014, 2, 18, 12, 10, 1), Stamp(2014, 2, 18, 14, 0, 0), true), // #eleven (js/maidan.js:574)
      Window(Stamp(2014, 2, 18, 14, 0, 1), Stamp(2014, 2, 18, 14, 15, 0), true), // #fourteen (js/maidan.js:601)
      Window(Stamp(2014, 2, 18, 14, 15, 1), Stamp(2014, 2, 18, 14, 30, 0), true), // #sixteen (js/maidan.js:620)
      Window(Stamp(2014, 2, 18, 14, 31, 0), Stamp(2014, 2, 18, 15, 10, 0), true), // #seventeen (js/maidan.js:632)
      Window(Stamp(2014, 2, 18, 15, 10, 1), Stamp(2014, 2, 18, 16, 0, 0), true) // #eighteen (js/maidan.js:649)
    ]

  /** Sections twenty-two to thirty-one. */
  const Stretch2: seq<Window> := [
      Window(Stamp(2014, 2, 18, 16, 0, 1), Stamp(2014, 2, 18, 16, 15, 0), false), // #twenty-two (js/maidan.js:688)
      Window(Stamp(2014, 2, 18, 16, 15, 1), Stamp(2014, 2, 18, 17, 20, 0), false), // #twenty-five (js/maidan.js:711)
      Window(Stamp(2014, 2, 18, 17, 20, 1), Stamp(2014, 2, 18, 19, 0, 0), true), // #twenty-six (js/maidan.js:719)
      Window(Stamp(2014, 2, 18, 19, 0, 1), Stamp(2014, 2, 18, 19, 59, 0), false), // #twenty-eight (js/maidan.js:739)
      Window(Stamp(2014, 2, 18, 20, 0, 0), Stamp(2014, 2, 18, 20, 10, 0), true), // #twenty-nine (js/maidan.js:747)
      Window(Stamp(2014, 2, 18, 20, 10, 1), Stamp(2014, 2, 18, 21, 30, 0), true), // #thirty (js/maidan.js:754)
      Window(Stamp(2014, 2, 18, 21, 30, 1), Stamp(2014, 2, 18, 22, 0, 0), true) // #thirty-one (js/maidan.js:760)
    ]

  /** Sections thirty-two to forty. */
  const Stretch3: seq<Window> := [
      Window(Stamp(2014, 2, 18, 22, 0, 1), Stamp(2014, 2, 18, 22, 30, 0), true), // #thirty-two (js/maidan.js:766)
      Window(Stamp(2014, 2, 18, 22, 30, 1), Stamp(2014, 2, 18, 23, 0, 0), false), // #thirty-three (js/maidan.js:773)
      Window(Stamp(2014, 2, 18, 23, 0, 1), Stamp(2014, 2, 18, 23, 50, 0), true), // #thirty-five (js/maidan.js:793)
      Window(Stamp(2014, 2, 18, 23, 50, 1), Stamp(2014, 2, 18, 23, 55, 0), true), // #thirty-six (js/maidan.js:799)
      Window(Stamp(2014, 2, 18, 23, 55, 1), Stamp(2014, 2, 19, 0, 15, 0), true), // #thirty-seven (js/maidan.js:805)
      Window(Stamp(2014, 2, 19, 0, 15, 1), Stamp(2014, 2, 19, 0, 45, 0), true), // #thirty-eight (js/maidan.js:814)
      Window(Stamp(2014, 2, 19, 0, 45, 1), Stamp(2014, 2, 19, 1, 0, 0), true) // #forty (js/maidan.js:834)
    ]

  /** Sections forty-one to fifty-five. */
  const Stretch4: seq<Window> := [
      Window(Stamp(2014, 2, 19, 1, 0, 1), Stamp(2014, 2, 19, 2, 10, 0), false), // #forty-one (js/maidan.js:840)
      Window(Stamp(2014, 2, 19, 2, 10, 1), Stamp(2014, 2, 20, 8, 0, 0), true), // #forty-eight (js/maidan.js:908)
      Window(Stamp(2014, 2, 20, 8, 0, 1), Stamp(2014, 2, 20, 8, 50, 0), true), // #forty-nine (js/maidan.js:918)
      Window(Stamp(2014, 2, 20, 8, 50, 1), Stamp(2014, 2, 20, 8, 59, 34), false), // #fifty-two (js/maidan.js:943)
      Window(Stamp(2014, 2, 20, 8, 59, 35), Stamp(2014, 2, 20, 9, 0, 37), true), // #fifty-three (js/maidan.js:954)
      Window(Stamp(2014, 2, 20, 9, 0, 38), Stamp(2014, 2, 20, 9, 5, 0), true), // #fifty-four (js/maidan.js:965)
      Window(Stamp(2014, 2, 20, 9, 5, 1), Stamp(2014, 2, 20, 9, 7, 16), true) // #fifty-five (js/maidan.js:971)
    ]

  /** Sections fifty-eight to sixty-eight. */
  const Stretch5: seq<Window> := [
      Window(Stamp(2014, 2, 20, 9, 7, 17), Stamp(2014, 2, 20, 9, 8, 15), true), // #fifty-eight (js/maidan.js:997)
      Window(Stamp(2014, 2, 20, 9, 8, 16), Stamp(2014, 2, 20, 9, 8, 34), true), // #fifty-nine (js/maidan.js:1003)
      Window(Stamp(2014, 2, 20, 9, 8, 35), Stamp(2014, 2, 20, 9, 11, 55), false), // #sixty (js/maidan.js:1010)
      Window(Stamp(2014, 2, 20, 9, 11, 56), Stamp(2014, 2, 20, 9, 15, 40), true), // #sixty-three (js/maidan.js:1034)
      Window(Stamp(2014, 2, 20, 9, 15, 41), Stamp(2014, 2, 20, 9, 18, 8), false), // #sixty-four (js/maidan.js:1046)
      Window(Stamp(2014, 2, 20, 9, 18, 9), Stamp(2014, 2, 20, 9, 21, 59), true), // #sixty-six (js/maidan.js:1059)
      Window(Stamp(2014, 2, 20, 9, 22, 0), Stamp(2014, 2, 20, 9, 26, 0), true) // #sixty-eight (js/maidan.js:1074)
    ]

  /** Sections sixty-nine to seventy-five. */
  const Stretch6: seq<Window> := [
      Window(Stamp(2014, 2, 20, 9, 26, 1), Stamp(2014, 2, 20, 9, 28, 0), false), // #sixty-nine (js/maidan.js:1086)
      Window(Stamp(2014, 2, 20, 9, 28, 1), Stamp(2014, 2, 20, 9, 29, 40), true), // #seventy (js/maidan.js:1096)
      Window(Stamp(2014, 2, 20, 9, 29, 41), Stamp(2014, 2, 20, 9, 47, 11), false), // #seventy-one (js/maidan.js:1103)
      Window(Stamp(2014, 2, 20, 9, 47, 12), Stamp(2014, 2, 20, 9, 56, 28), false), // #seventy-two (js/maidan.js:1111)
      Window(Stamp(2014, 2, 20, 9, 56, 29), Stamp(2014, 2, 20, 11, 29, 54), false), // #seventy-three (js/maidan.js:1118)
      Window(Stamp(2014, 2, 20, 11, 29, 55), Stamp(2014, 2, 20, 16, 57, 55), true) // #seventy-five (js/maidan.js:1144)
    ]

  /** The order of a schedule checked one neighbour at a time from index i
      on: each window has well-formed timestamps, is non-empty, and ends
      before the next one starts. */
  predicate ChainedFrom(ws: seq<Window>, i: nat)
    decreases |ws| - i
  {
    i >= |ws| ||
    (WellFormed(ws[i].start) && WellFormed(ws[i].finish) &&
     Key(ws[i].start) <= Key(ws[i].finish) &&
     (i + 1 == |ws| || Key(ws[i].finish) < Key(ws[i + 1].start)) &&
     ChainedFrom(ws, i + 1))
  }

  /** The neighbour-by-neighbour check from index i covers every window from i on. */
  lemma {:induction false} ChainedFromAt(ws: seq<Window>, i: nat, j: int)
    requires ChainedFrom(ws, i) && i <= j < |ws|
    ensures WellFormed(ws[j].start) && WellFormed(ws[j].finish)
    ensures Key(ws[j].start) <= Key(ws[j].finish)
    ensures j + 1 < |ws| ==> Key(ws[j].finish) < Key(ws[j + 1].start)
    decreases j - i
  {
    if i < j {
      ChainedFromAt(ws, i + 1, j);
    }
  }

  /** Every timestamp of the schedule is well-formed, so comparing keys is
      comparing instants (Timestamps.KeyOrder). */
  predicate Stamped(ws: seq<Window>) {
    forall j :: 0 <= j < |ws| ==> WellFormed(ws[j].start) && WellFormed(ws[j].finish)
  }

  /** The neighbour-by-neighbour check is the order of the whole schedule. */
  lemma ChainedOrdered(ws: seq<Window>)
    requires ChainedFrom(ws, 0)
    ensures Ordered(ws) && Stamped(ws)
  {
    forall j | 0 <= j < |ws| ensures Stamped([ws[j]]) && Key(ws[j].start) <= Key(ws[j].finish) {
      ChainedFromAt(ws, 0, j);
    }
    forall j | 0 <= j < |ws| - 1 ensures Key(ws[j].finish) < Key(ws[j + 1].start) {
      ChainedFromAt(ws, 0, j);
    }
  }

  /** Two ordered schedules, the first ending before the second starts,
      make one ordered schedule. */
  lemma OrderedConcat(a: seq<Window>, b: seq<Window>)
    requires Ordered(a) && Ordered(b)
    requires a != [] && b != [] ==> Key(a[|a| - 1].finish) < Key(b[0].start)
    ensures Ordered(a + b)
  {
  }

  /** Each stretch of the table passes the check; it is evaluated on the
      literal table, one stretch at a time to keep each computation small. */
  lemma Stretch1Ordered()
    ensures Ordered(Stretch1) && Stamped(Stretch1)
  {
    assert ChainedFrom(Stretch1, 0);
    ChainedOrdered(Stretch1);
  }

  lemma Stretch2Ordered()
    ensures Ordered(Stretch2) && Stamped(Stretch2)
  {
    assert ChainedFrom(Stretch2, 0);
    ChainedOrdered(Stretch2);
  }

  lemma Stretch3Ordered()
    ensures Ordered(Stretch3) && Stamped(Stretch3)
  {
    assert ChainedFrom(Stretch3, 0);
    ChainedOrdered(Stretch3);
  }

  lemma Stretch4Ordered()
    ensures Ordered(Stretch4) && Stamped(Stretch4)
  {
    assert ChainedFrom(Stretch4, 0);
    ChainedOrdered(Stretch4);
  }

  lemma Stretch5Ordered()
    ensures Ordered(Stretch5) && Stamped(Stretch5)
  {
    assert ChainedFrom(Stretch5, 0);
    ChainedOrdered(Stretch5);
  }

  lemma Stretch6Ordered()
    ensures Ordered(Stretch6) && Stamped(Stretch6)
  {
    assert ChainedFrom(Stretch6, 0);
    ChainedOrdered(Stretch6);
  }

  /** The narrative's windows are well-formed, each non-empty, and each ends
      before the next one starts. */
  lemma WindowsOrdered()
    ensures Ordered(Windows) && Stamped(Windows)
  {
    Stretch1Ordered();
    Stretch2Ordered();
    Stretch3Ordered();
    Stretch4Ordered();
    Stretch5Ordered();
    Stretch6Ordered();
    OrderedConcat(Stretch1, Stretch2);
    OrderedConcat(Stretch1 + Stretch2, Stretch3);
    OrderedConcat(Stretch1 + Stretch2 + Stretch3, Stretch4);
    OrderedConcat(Stretch1 + Stretch2 + Stretch3 + Stretch4, Stretch5);
    OrderedConcat(Stretch1 + Stretch2 + Stretch3 + Stretch4 + Stretch5, Stretch6);
  }

  /** Every window ends before any later one starts, so each killing lies in
      at most one window and scrolling down the page announces it at most once. */
  lemma WindowsDisjoint(t: Stamp, j: int, k: int)
    requires 0 <= j < k < |Windows|
    ensures Key(Windows[j].finish) < Key(Windows[k].start)
    ensures !(InWindow(t, Windows[j].start, Windows[j].finish) && InWindow(t, Windows[k].start, Windows[k].finish))
  {
    WindowsOrdered();
    OrderedPairwise(Windows, j, k);
  }

  /** Scrolling down from the top, where every circle is hidden, through the
      first k sections that show a window reveals exactly the killings that
      lie in one of those k windows. */
  lemma ScrollDown(pts: seq<Killing>, k: int)
    requires 0 <= k <= |Windows|
    ensures forall i :: 0 <= i < |pts| ==>
              (Replay(pts, AllHidden(|pts|), Windows[..k])[i] == Revealed <==> Covered(Windows[..k], pts[i].time))
  {
    WindowsOrdered();
    OrderedPrefix(Windows, k);
    ReplayUnion(pts, Windows[..k]);
  }

  /** Scrolling back up past the anchor of window j's section (its handler
      fires `up` as the reader moves into the section above), after the first
      k windows were shown, leaves exactly the first j + 1 windows revealed.
      On the way down the section above showed only the first j (UpwardLag). */
  lemma ScrollBackUp(pts: seq<Killing>, j: int, k: int)
    requires 0 <= j < k <= |Windows|
    ensures ShowState(pts, Replay(pts, AllHidden(|pts|), Windows[..k]), Windows[j].start, Windows[j].finish)
            == Replay(pts, AllHidden(|pts|), Windows[..j + 1])
  {
    WindowsOrdered();
    ReapplyRestores(pts, Windows, j, k);
  }

  /** The date section five's handler hides after when it fires going up. */
  const SectionFiveHide: Stamp := Stamp(2014, 1, 23, 14, 0, 0)

  /** Scrolling back up past section five's anchor, as the reader moves into
      section four, hides everything after the first window's end, so exactly
      the first window stays revealed, however far down the reader had been. */
  lemma SectionFiveUp(pts: seq<Killing>, k: int)
    requires 1 <= k <= |Windows|
    ensures HideState(pts, Replay(pts, AllHidden(|pts|), Windows[..k]), SectionFiveHide)
            == Replay(pts, AllHidden(|pts|), Windows[..1])
  {
    WindowsOrdered();
    assert Windows[0].finish == SectionFiveHide;
    HideRestores(pts, Windows, 0, k);
  }

  /** Going up, the reveals lag one window behind the way down.  A killing at
      13:00:00 on 18 February lies in window 2 (section eleven).  Just above
      section eleven's anchor it is hidden on the way down, after windows 0
      and 1 only; when the reader comes back up past that anchor from further
      down, section eleven's handler shows window 2 again and it is revealed. */
  lemma UpwardLag(name: string, tabir: string, k: int)
    requires 3 <= k <= |Windows|
    ensures var pts := [Killing(Stamp(2014, 2, 18, 13, 0, 0), name, tabir)];
            Replay(pts, AllHidden(1), Windows[..2])[0] == Hidden &&
            ShowState(pts, Replay(pts, AllHidden(1), Windows[..k]), Windows[2].start, Windows[2].finish)[0] == Revealed
  {
    var t := Stamp(2014, 2, 18, 13, 0, 0);
    var pts := [Killing(t, name, tabir)];
    WindowsOrdered();
    assert Windows[0].finish == Stamp(2014, 1, 23, 14, 0, 0) && Windows[1].finish == Stamp(2014, 2, 18, 12, 10, 0);
    assert Windows[2].start == Stamp(2014, 2, 18, 12, 10, 1) && Windows[2].finish == Stamp(2014, 2, 18, 14, 0, 0);
    assert !Covered(Windows[..2], t);
    ScrollDown(pts, 2);
    ScrollBackUp(pts, 2, k);
    ScrollDown(pts, 3);
    assert InWindow(t, Windows[..3][2].start, Windows[..3][2].finish);
  }

  /** Unlike their neighbours, which are one second apart, two pairs of
      consecutive windows leave a whole minute of 18 February uncovered: the
      one after 14:30:00 (sections sixteen and seventeen) and the one after
      19:59:00 (sections twenty-eight and twenty-nine).  A killing timed
      inside either minute is never revealed by the scroll. */
  lemma MinuteGaps(t: Stamp)
    requires (Key(Stamp(2014, 2, 18, 14, 30, 0)) < Key(t) < Key(Stamp(2014, 2, 18, 14, 31, 0))) ||
             (Key(Stamp(2014, 2, 18, 19, 59, 0)) < Key(t) < Key(Stamp(2014, 2, 18, 20, 0, 0)))
    ensures !Covered(Windows, t)
  {
    WindowsOrdered();
    if Key(t) < Key(Stamp(2014, 2, 18, 14, 31, 0)) {
      assert Windows[4].finish == Stamp(2014, 2, 18, 14, 30, 0) && Windows[5].start == Stamp(2014, 2, 18, 14, 31, 0);
      GapUncovered(Windows, 4, t);
    } else {
      assert Windows[10].finish == Stamp(2014, 2, 18, 19, 59, 0) && Windows[11].start == Stamp(2014, 2, 18, 20, 0, 0);
      GapUncovered(Windows, 10, t);
    }
  }

  /** The first window, section one, ends at 14:00:00 on 23 January and the
      second, section six, starts at 10:00:00 on 18 February: a killing timed
      in the nearly four weeks between is never revealed by the scroll. */
  lemma WinterGap(t: Stamp)
    requires Key(Stamp(2014, 1, 23, 14, 0, 0)) < Key(t) < Key(Stamp(2014, 2, 18, 10, 0, 0))
    ensures !Covered(Windows, t)
  {
    WindowsOrdered();
    assert Windows[0].finish == Stamp(2014, 1, 23, 14, 0, 0) && Windows[1].start == Stamp(2014, 2, 18, 10, 0, 0);
    GapUncovered(Windows, 0, t);
  }
}

/** The timeline reveal filter as functions of the circles' opacity states:
    hideKilling, showKilling and the labels showKilling announces, plus the
    theory of replaying a sequence of reveal windows. */
module Timeline {
  import opened Timestamps
  import opened Markers

  /** The filter of hideKilling: strictly later than `date`. */
  predicate After(t: Stamp, date: Stamp) {
    Key(t) > Key(date)
  }

  /** The filter of showKilling: between `d1` and `d2`, both ends included. */
  predicate InWindow(t: Stamp, d1: Stamp, d2: Stamp) {
    Key(d1) <= Key(t) <= Key(d2)
  }

  /** The state before any window is shown: every circle starts at opacity 0. */
  function AllHidden(n: nat): (s: seq<Opacity>)
    ensures |s| == n && forall i :: 0 <= i < n ==> s[i] == Hidden
  {
    seq(n, _ => Hidden)
  }

  /** Opacities after hideKilling(date): every circle later than `date` is
      hidden, every other one keeps its state. */
  function HideState(pts: seq<Killing>, s: seq<Opacity>, date: Stamp): seq<Opacity>
    requires |s| == |pts|
  {
    seq(|s|, i requires 0 <= i < |s| => if After(pts[i].time, date) then Hidden else s[i])
  }

  /** Opacities after the second filter of showKilling: the circles in the
      window get opacity 0.5, the rest keep their state. */
  function RevealState(pts: seq<Killing>, s: seq<Opacity>, d1: Stamp, d2: Stamp): seq<Opacity>
    requires |s| == |pts|
  {
    seq(|s|, i requires 0 <= i < |s| => if InWindow(pts[i].time, d1, d2) then Revealed else s[i])
  }

  /** Opacities after showKilling(d1, d2, _): first hideKilling(d2), then the reveal. */
  function ShowState(pts: seq<Killing>, s: seq<Opacity>, d1: Stamp, d2: Stamp): seq<Opacity>
    requires |s| == |pts|
  {
    RevealState(pts, HideState(pts, s, d2), d1, d2)
  }

  /** What showKilling does to each circle: the window is revealed, every
      later circle is hidden, and every earlier one keeps its state, so
      reveals accumulate rather than replace. */
  lemma ShowEffect(pts: seq<Killing>, s: seq<Opacity>, d1: Stamp, d2: Stamp, i: int)
    requires |s| == |pts| && 0 <= i < |pts|
    ensures |ShowState(pts, s, d1, d2)| == |pts|
    ensures InWindow(pts[i].time, d1, d2) ==> ShowState(pts, s, d1, d2)[i] == Revealed
    ensures After(pts[i].time, d2) ==> ShowState(pts, s, d1, d2)[i] == Hidden
    ensures Key(pts[i].time) < Key(d1) && !After(pts[i].time, d2) ==> ShowState(pts, s, d1, d2)[i] == s[i]
  {
  }

  /** Showing the same window twice leaves the opacities as showing it once. */
  lemma ShowIdempotent(pts: seq<Killing>, s: seq<Opacity>, d1: Stamp, d2: Stamp)
    requires |s| == |pts|
    ensures ShowState(pts, ShowState(pts, s, d1, d2), d1, d2) == ShowState(pts, s, d1, d2)
  {
  }

  /** Hiding twice is hiding once, after the earlier of the two dates. */
  lemma HideHide(pts: seq<Killing>, s: seq<Opacity>, a: Stamp, b: Stamp)
    requires |s| == |pts|
    ensures HideState(pts, HideState(pts, s, a), b) == HideState(pts, s, if Key(a) <= Key(b) then a else b)
  {
  }

  /** The indices of the circles in a window, in data order: the order in
      which d3 visits the filtered selection. */
  function Hits(pts: seq<Killing>, d1: Stamp, d2: Stamp): (h: seq<nat>)
    ensures forall k :: 0 <= k < |h| ==> h[k] < |pts| && InWindow(pts[h[k]].time, d1, d2)
    ensures forall k, m :: 0 <= k < m < |h| ==> h[k] < h[m]
    ensures forall i :: 0 <= i < |pts| && InWindow(pts[i].time, d1, d2) ==> i in h
  {
    if pts == [] then []
    else
      var n := |pts| - 1;
      Hits(pts[..n], d1, d2) + (if InWindow(pts[n].time, d1, d2) then [n] else [])
  }

  /** The labels showKilling(d1, d2, announce) pops up, one per circle as d3
      visits the window's circles in data order. */
  function Labels(pts: seq<Killing>, d1: Stamp, d2: Stamp, announce: bool): (ls: seq<string>)
    ensures announce ==> |ls| == |Hits(pts, d1, d2)|
    ensures announce ==> forall k :: 0 <= k < |ls| ==> ls[k] == FirstToken(pts[Hits(pts, d1, d2)[k]].name)
    ensures !announce ==> ls == []
  {
    if pts == [] then []
    else
      var n := |pts| - 1;
      Labels(pts[..n], d1, d2, announce) +
        (if announce && InWindow(pts[n].time, d1, d2) then [FirstToken(pts[n].name)] else [])
  }

  /** A showKilling call of the narrative: its window and whether it announces. */
  datatype Window = Window(start: Stamp, finish: Stamp, announce: bool)

  /** A schedule of windows each non-empty and each ending before the next starts. */
  predicate Ordered(ws: seq<Window>) {
    (forall j :: 0 <= j < |ws| ==> Key(ws[j].start) <= Key(ws[j].finish)) &&
    (forall j :: 0 <= j < |ws| - 1 ==> Key(ws[j].finish) < Key(ws[j + 1].start))
  }

  /** In an ordered schedule, every window ends before any later one starts:
      the windows are pairwise disjoint. */
  lemma {:induction false} OrderedPairwise(ws: seq<Window>, j: int, k: int)
    requires Ordered(ws) && 0 <= j < k < |ws|
    ensures Key(ws[j].finish) < Key(ws[k].start)
    decreases k - j
  {
    if j + 1 < k {
      OrderedPairwise(ws, j + 1, k);
    }
  }

  /** The opacities after showing the windows `ws` one after the other. */
  function Replay(pts: seq<Killing>, s: seq<Opacity>, ws: seq<Window>): (r: seq<Opacity>)
    requires |s| == |pts|
    ensures |r| == |pts|
  {
    if ws == [] then s
    else
      var last := ws[|ws| - 1];
      ShowState(pts, Replay(pts, s, ws[..|ws| - 1]), last.start, last.finish)
  }

  /** Some window of `ws` contains `t`. */
  predicate Covered(ws: seq<Window>, t: Stamp) {
    exists j :: 0 <= j < |ws| && InWindow(t, ws[j].start, ws[j].finish)
  }

  /** Starting from all hidden, replaying an ordered schedule reveals exactly
      the circles that lie in one of its windows. */
  lemma {:induction false} ReplayUnion(pts: seq<Killing>, ws: seq<Window>)
    requires Ordered(ws)
    ensures forall i :: 0 <= i < |pts| ==>
              (Replay(pts, AllHidden(|pts|), ws)[i] == Revealed <==> Covered(ws, pts[i].time))
  {
    if ws != [] {
      var n := |ws| - 1;
      var prefix := ws[..n];
      assert Ordered(prefix);
      ReplayUnion(pts, prefix);
      var before := Replay(pts, AllHidden(|pts|), prefix);
      forall i | 0 <= i < |pts|
        ensures Replay(pts, AllHidden(|pts|), ws)[i] == Revealed <==> Covered(ws, pts[i].time)
      {
        var t := pts[i].time;
        if Covered(ws, t) && !InWindow(t, ws[n].start, ws[n].finish) {
          var j :| 0 <= j < |ws| && InWindow(t, ws[j].start, ws[j].finish);
          OrderedPairwise(ws, j, n);
          assert prefix[j] == ws[j];
        }
        if Covered(prefix, t) {
          var j :| 0 <= j < |prefix| && InWindow(t, prefix[j].start, prefix[j].finish);
          assert ws[j] == prefix[j];
        }
      }
    }
  }

  /** A time strictly between the end of window j and the start of window
      j + 1 of an ordered schedule lies in none of its windows. */
  lemma GapUncovered(ws: seq<Window>, j: int, t: Stamp)
    requires Ordered(ws) && 0 <= j < |ws| - 1
    requires Key(ws[j].finish) < Key(t) < Key(ws[j + 1].start)
    ensures !Covered(ws, t)
  {
    forall m | 0 <= m < |ws| ensures !InWindow(t, ws[m].start, ws[m].finish) {
      if m < j {
        OrderedPairwise(ws, m, j);
      } else if m > j + 1 {
        OrderedPairwise(ws, j + 1, m);
      }
    }
  }

  /** Every prefix of an ordered schedule is ordered. */
  lemma OrderedPrefix(ws: seq<Window>, k: int)
    requires Ordered(ws) && 0 <= k <= |ws|
    ensures Ordered(ws[..k])
  {
  }

  /** Which windows of the first k can contain a time, measured against an
      earlier window j: a time up to j's end lies in the first k windows
      exactly when it lies in the first j + 1, and a time after j's end lies
      in none of the first j + 1. */
  lemma {:induction false} PrefixCover(ws: seq<Window>, j: int, k: int, t: Stamp)
    requires Ordered(ws) && 0 <= j < k <= |ws|
    ensures Key(t) <= Key(ws[j].finish) ==> (Covered(ws[..k], t) <==> Covered(ws[..j + 1], t))
    ensures Key(t) > Key(ws[j].finish) ==> !Covered(ws[..j + 1], t)
  {
    var upToK, upToJ := ws[..k], ws[..j + 1];
    if Covered(upToJ, t) {
      var m :| 0 <= m < |upToJ| && InWindow(t, upToJ[m].start, upToJ[m].finish);
      assert upToK[m] == ws[m];
      if m < j {
        OrderedPairwise(ws, m, j);
      }
    }
    if Covered(upToK, t) && Key(t) <= Key(ws[j].finish) {
      var m :| 0 <= m < |upToK| && InWindow(t, upToK[m].start, upToK[m].finish);
      if m <= j {
        assert upToJ[m] == ws[m];
      } else {
        OrderedPairwise(ws, j, m);
      }
    }
  }

  /** Once the first k windows are shown, showing an earlier window j again
      (scrolling back up past its section's anchor) yields exactly the union of the
      windows up to j. */
  lemma ReapplyRestores(pts: seq<Killing>, ws: seq<Window>, j: int, k: int)
    requires Ordered(ws) && 0 <= j < k <= |ws|
    ensures ShowState(pts, Replay(pts, AllHidden(|pts|), ws[..k]), ws[j].start, ws[j].finish)
            == Replay(pts, AllHidden(|pts|), ws[..j + 1])
  {
    var upToK, upToJ := ws[..k], ws[..j + 1];
    OrderedPrefix(ws, k);
    OrderedPrefix(ws, j + 1);
    ReplayUnion(pts, upToK);
    ReplayUnion(pts, upToJ);
    var lhs := ShowState(pts, Replay(pts, AllHidden(|pts|), upToK), ws[j].start, ws[j].finish);
    var rhs := Replay(pts, AllHidden(|pts|), upToJ);
    forall i | 0 <= i < |pts| ensures lhs[i] == rhs[i] {
      PrefixCover(ws, j, k, pts[i].time);
      assert upToJ[j] == ws[j];
    }
  }

  /** Once the first k windows are shown, hiding after the end of an earlier
      window j (as the scroll handler of section five does) yields exactly
      the union of the windows up to j. */
  lemma HideRestores(pts: seq<Killing>, ws: seq<Window>, j: int, k: int)
    requires Ordered(ws) && 0 <= j < k <= |ws|
    ensures HideState(pts, Replay(pts, AllHidden(|pts|), ws[..k]), ws[j].finish)
            == Replay(pts, AllHidden(|pts|), ws[..j + 1])
  {
    var upToK, upToJ := ws[..k], ws[..j + 1];
    OrderedPrefix(ws, k);
    OrderedPrefix(ws, j + 1);
    ReplayUnion(pts, upToK);
    ReplayUnion(pts, upToJ);
    var lhs := HideState(pts, Replay(pts, AllHidden(|pts|), upToK), ws[j].finish);
    var rhs := Replay(pts, AllHidden(|pts|), upToJ);
    forall i | 0 <= i < |pts| ensures lhs[i] == rhs[i] {
      PrefixCover(ws, j, k, pts[i].time);
    }
  }

  /** Three killings at t1 < t2 < t3: showing [t1, t2] reveals the first
      two; hiding after t1 then hides the second again but keeps the first,
      because hideKilling compares with a strict "later than". */
  lemma ThreeKillings(k1: Killing, k2: Killing, k3: Killing)
    requires Key(k1.time) < Key(k2.time) < Key(k3.time)
    ensures ShowState([k1, k2, k3], AllHidden(3), k1.time, k2.time) == [Revealed, Revealed, Hidden]
    ensures HideState([k1, k2, k3], [Revealed, Revealed, Hidden], k1.time) == [Revealed, Hidden, Hidden]
  {
    var pts := [k1, k2, k3];
    var shown := ShowState(pts, AllHidden(3), k1.time, k2.time);
    assert shown[0] == Revealed && shown[1] == Revealed && shown[2] == Hidden;
    var hidden := HideState(pts, [Revealed, Revealed, Hidden], k1.time);
    assert hidden[0] == Revealed && hidden[1] == Hidden && hidden[2] == Hidden;
  }

  /** The same show, with labels, announces both revealed killings, in order. */
  lemma ThreeKillingsLabels(k1: Killing, k2: Killing, k3: Killing)
    requires Key(k1.time) < Key(k2.time) < Key(k3.time)
    ensures Labels([k1, k2, k3], k1.time, k2.time, true) == [FirstToken(k1.name), FirstToken(k2.name)]
  {
    var d1, d2 := k1.time, k2.time;
    assert [k1][..0] == [];
    assert Labels([k1], d1, d2, true) == [FirstToken(k1.name)];
    assert [k1, k2][..1] == [k1];
    assert Labels([k1, k2], d1, d2, true) == [FirstToken(k1.name), FirstToken(k2.name)];
    assert [k1, k2, k3][..2] == [k1, k2];
  }
}

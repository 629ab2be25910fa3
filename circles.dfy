/** The circles of the killings overlay, whose opacities hideKilling and
    showKilling change in place by filtering the whole selection and setting
    the attribute on what passes the filter. */
module Circles {
  import opened Timestamps
  import opened Markers
  import opened Timeline

  class Dots {
    /** The killings data set, bound to the circles once and never changed. */
    const points: seq<Killing>
    /** The opacity of the circle drawn for each killing. */
    const opacity: array<Opacity>

    ghost predicate Valid()
      reads this
    {
      opacity.Length == |points|
    }

    /** One circle per killing, each drawn with opacity 0. */
    constructor (data: seq<Killing>)
      ensures Valid() && points == data && fresh(opacity)
      ensures opacity[..] == AllHidden(|data|)
    {
      points := data;
      opacity := new Opacity[|data|](_ => Hidden);
    }

    /** hideKilling(date): every circle later than `date` goes to opacity 0;
        the others are left as they were. */
    method Hide(date: Stamp)
      requires Valid()
      modifies opacity
      ensures forall i :: 0 <= i < |points| ==>
                opacity[i] == if After(points[i].time, date) then Hidden else old(opacity[i])
      ensures opacity[..] == HideState(points, old(opacity[..]), date)
    {
      for i := 0 to opacity.Length
        invariant forall j :: 0 <= j < i ==>
                    opacity[j] == if After(points[j].time, date) then Hidden else old(opacity[j])
        invariant forall j :: i <= j < opacity.Length ==> opacity[j] == old(opacity[j])
      {
        if After(points[i].time, date) {
          opacity[i] := Hidden;
        }
      }
    }

    /** showKilling(d1, d2, announce): hide everything after `d2`, reveal
        every circle in [d1, d2], and, when `announce` holds, return the label
        each revealed circle pops up, in data order. */
    method Show(d1: Stamp, d2: Stamp, announce: bool) returns (labels: seq<string>)
      requires Valid()
      modifies opacity
      ensures forall i :: 0 <= i < |points| && InWindow(points[i].time, d1, d2) ==> opacity[i] == Revealed
      ensures forall i :: 0 <= i < |points| && After(points[i].time, d2) ==> opacity[i] == Hidden
      ensures forall i :: 0 <= i < |points| && Key(points[i].time) < Key(d1) && !After(points[i].time, d2) ==>
                opacity[i] == old(opacity[i])
      ensures opacity[..] == ShowState(points, old(opacity[..]), d1, d2)
      ensures labels == Labels(points, d1, d2, announce)
    {
      Hide(d2);
      ghost var hidden := opacity[..];
      labels := [];
      for i := 0 to opacity.Length
        invariant forall j :: 0 <= j < i ==>
                    opacity[j] == if InWindow(points[j].time, d1, d2) then Revealed else hidden[j]
        invariant forall j :: i <= j < opacity.Length ==> opacity[j] == hidden[j]
        invariant labels == Labels(points[..i], d1, d2, announce)
      {
        assert points[..i + 1][..i] == points[..i];
        if InWindow(points[i].time, d1, d2) {
          opacity[i] := Revealed;
          if announce {
            labels := labels + [FirstToken(points[i].name)];
          }
        }
      }
      assert points[..opacity.Length] == points;
    }
  }
}

/** Looking features up by their `properties.id`: the attack lines drawn by
    attackLine and the polygon snapshots that morph moves a shape to. */
module Lookup {

  datatype Option<T> = None | Some(value: T)

  datatype Position = Position(lon: real, lat: real)

  /** A line or polygon feature: its `properties.id`, its `properties.class` (kind)
      and its geometry. */
  datatype Feature = Feature(id: string, kind: string, geometry: seq<Position>)

  /** Some feature carries the id. */
  predicate HasId(fs: seq<Feature>, id: string) {
    exists k :: 0 <= k < |fs| && fs[k].id == id
  }

  /** The positions of the features carrying the id, in list order. */
  function Positions(fs: seq<Feature>, id: string): (h: seq<nat>)
    ensures forall k :: 0 <= k < |h| ==> h[k] < |fs| && fs[h[k]].id == id
    ensures forall k, m :: 0 <= k < m < |h| ==> h[k] < h[m]
    ensures forall i :: 0 <= i < |fs| && fs[i].id == id ==> i in h
  {
    if fs == [] then []
    else
      var n := |fs| - 1;
      Positions(fs[..n], id) + (if fs[n].id == id then [n] else [])
  }

  /** `features.filter(f => f.properties["id"] == id)`: the features with
      that id, each once, in list order. */
  function Matching(fs: seq<Feature>, id: string): (r: seq<Feature>)
    ensures |r| == |Positions(fs, id)|
    ensures forall k :: 0 <= k < |r| ==> r[k] == fs[Positions(fs, id)[k]]
  {
    if fs == [] then []
    else
      var n := |fs| - 1;
      Matching(fs[..n], id) + (if fs[n].id == id then [fs[n]] else [])
  }

  /** The head of the filtered list is the first feature carrying the id. */
  lemma MatchingHead(fs: seq<Feature>, id: string)
    requires Matching(fs, id) != []
    ensures exists k :: 0 <= k < |fs| && fs[k] == Matching(fs, id)[0] && forall m :: 0 <= m < k ==> fs[m].id != id
  {
    var h := Positions(fs, id);
    forall m | 0 <= m < h[0] ensures fs[m].id != id {
      assert m !in h;
    }
  }

  /** `Matching(fs, id)[0]`, which is undefined when nothing matches: the
      first feature carrying the id, if there is one. */
  function FirstWithId(fs: seq<Feature>, id: string): (r: Option<Feature>)
    ensures r == None <==> !HasId(fs, id)
    ensures r.Some? ==> exists k :: 0 <= k < |fs| && fs[k] == r.value && r.value.id == id &&
                                    forall m :: 0 <= m < k ==> fs[m].id != id
  {
    var m := Matching(fs, id);
    if m == [] then None else MatchingHead(fs, id); Some(m[0])
  }

  /** The geometries attackLine binds to new paths: one entry per requested
      id, in request order, each the first feature with that id.  An id
      without a feature leaves an undefined entry, and drawing it fails when
      its `properties.class` is read; every entry is defined exactly when
      every requested id has a feature. */
  method AttackLineGeometries(features: seq<Feature>, list: seq<string>) returns (geometries: seq<Option<Feature>>)
    ensures |geometries| == |list|
    ensures forall i :: 0 <= i < |list| ==> geometries[i] == FirstWithId(features, list[i])
    ensures (forall i :: 0 <= i < |list| ==> geometries[i].Some?) <==>
            (forall i :: 0 <= i < |list| ==> HasId(features, list[i]))
  {
    geometries := [];
    for i := 0 to |list|
      invariant |geometries| == i
      invariant forall j :: 0 <= j < i ==> geometries[j] == FirstWithId(features, list[j])
    {
      var newLine := Matching(features, list[i]);
      geometries := geometries + [if newLine == [] then None else Some(newLine[0])];
    }
  }

  /** morph(key, list): every shape drawn for a requested id takes the
      geometries of the snapshot `key` that carry that id (none at all when
      the snapshot lacks it: the shape is then drawn empty, not left as it
      was).  Ids with no shape drawn select nothing and change nothing.  A
      missing snapshot makes the first lookup fail (None); with an empty
      list no lookup happens. */
  method Morph(shapes: map<string, seq<Feature>>, snapshots: map<string, seq<Feature>>, key: string, list: seq<string>)
    returns (r: Option<map<string, seq<Feature>>>)
    ensures r == None <==> key !in snapshots && list != []
    ensures r.Some? ==> r.value.Keys == shapes.Keys
    ensures r.Some? ==> forall id :: id in shapes ==>
              r.value[id] == if id in list then Matching(snapshots[key], id) else shapes[id]
  {
    if list == [] {
      return Some(shapes);
    }
    if key !in snapshots {
      return None;
    }
    var features := snapshots[key];
    var drawn := shapes;
    for i := 0 to |list|
      invariant drawn.Keys == shapes.Keys
      invariant forall id :: id in shapes ==>
                  drawn[id] == if id in list[..i] then Matching(features, id) else shapes[id]
    {
      var updated := Matching(features, list[i]);
      if list[i] in drawn {
        drawn := drawn[list[i] := updated];
      }
    }
    assert list[..|list|] == list;
    r := Some(drawn);
  }
}

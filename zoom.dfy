/** The initial zoom of the map, picked once from the window width. */
module Zoom {

  /** `zoom_size` in tenths of a zoom level: 13.5 up to 768 pixels, 14 up to
      1280, 14.4 up to 1440 and 14.6 beyond. */
  function InitialZoom(width: int): (z: int)
    ensures z in {135, 140, 144, 146}
    ensures width <= 768 <==> z == 135
    ensures 768 < width <= 1280 <==> z == 140
    ensures 1280 < width <= 1440 <==> z == 144
    ensures width > 1440 <==> z == 146
  {
    if width <= 768 then 135
    else if width <= 1280 then 140
    else if width <= 1440 then 144
    else 146
  }

  /** A wider window never starts the map more zoomed out. */
  lemma InitialZoomMonotone(w1: int, w2: int)
    requires w1 <= w2
    ensures InitialZoom(w1) <= InitialZoom(w2)
  {
  }
}

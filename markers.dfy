/** The killing records drawn as circles on the overlay, their two opacity
    states, the initial camp colours and the label text a revealed circle announces. */
module Markers {
  import opened Timestamps

  /** One feature of the killings data set: when it happened, the victim's
      name and the camp tag ("tabir") that picks the circle's colour. */
  datatype Killing = Killing(time: Stamp, name: string, tabir: string)

  /** A circle's opacity: 0 (hidden) or 0.5 (revealed); no other value is ever set. */
  datatype Opacity = Hidden | Revealed

  const Blue: string := "#89ADD2"
  const BlueStroke: string := "#C4D6E9"
  const Magenta: string := "#ae017e"

  /** The protesters' side: the camp tags coloured blue. */
  predicate ProtesterSide(tabir: string) {
    tabir == "maidan" || tabir == "civil"
  }

  /** Initial fill colour of a circle. */
  function Fill(tabir: string): string {
    if ProtesterSide(tabir) then Blue else Magenta
  }

  /** Initial stroke colour of a circle: a lighter blue on the protesters'
      side, the same magenta as the fill otherwise. */
  function Stroke(tabir: string): string {
    if ProtesterSide(tabir) then BlueStroke else Magenta
  }

  /** The label shown beside a revealed circle: `name.split(" ")[0]`, the
      name up to (not including) its first space, or the whole name when it
      has none. */
  function FirstToken(name: string): (r: string)
    ensures |r| <= |name| && r == name[..|r|]
    ensures ' ' !in r
    ensures |r| == |name| || name[|r|] == ' '
  {
    if name == [] || name[0] == ' ' then [] else [name[0]] + FirstToken(name[1..])
  }

  /** The three ensures of FirstToken pin the label down: no other string is
      a space-free prefix of the name followed by a space or the end. */
  lemma FirstTokenUnique(name: string, t: string)
    requires |t| <= |name| && t == name[..|t|] && ' ' !in t
    requires |t| == |name| || name[|t|] == ' '
    ensures t == FirstToken(name)
  {
  }
}

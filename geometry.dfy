// Scene-wide constants and the overlap test every entity uses.
// Positions are scene coordinates: origin top-left, y grows downward.
module Geometry {
  import opened Lists

  const SCENE_WIDTH: real := 800.0
  const SCENE_HEIGHT: real := 600.0
  const GRAVITY: real := 0.5

  /** An axis-aligned box: top-left corner and size. */
  datatype Rect = Rect(x: real, y: real, w: real, h: real)

  /** Two boxes overlap when their open intervals meet on both axes
      (boxes that only share an edge do not overlap). */
  predicate Overlaps(a: Rect, b: Rect) {
    a.x < b.x + b.w && b.x < a.x + a.w &&
    a.y < b.y + b.h && b.y < a.y + a.h
  }

  /** A static platform; immutable once placed. */
  datatype Platform = Platform(x: real, y: real, width: real, height: real) {
    function Box(): Rect { Rect(x, y, width, height) }
  }

  function PlatformBoxes(ps: seq<Platform>): (r: seq<Rect>)
    ensures |r| == |ps| && forall i :: 0 <= i < |ps| ==> r[i] == ps[i].Box()
  {
    seq(|ps|, i requires 0 <= i < |ps| => ps[i].Box())
  }

  /** Index of the first box (in list order) that overlaps `r`: what a scan
      over the list that stops at its first hit finds. */
  function FirstOverlap(r: Rect, boxes: seq<Rect>): (k: Option<nat>)
    ensures k.Some? ==> k.value < |boxes| && Overlaps(r, boxes[k.value])
    ensures k.Some? ==> forall j :: 0 <= j < k.value ==> !Overlaps(r, boxes[j])
    ensures k.None? <==> forall j :: 0 <= j < |boxes| ==> !Overlaps(r, boxes[j])
  {
    if boxes == [] then None
    else if Overlaps(r, boxes[0]) then Some(0)
    else match FirstOverlap(r, boxes[1..])
      case None => None
      case Some(j) => Some(j + 1)
  }
}

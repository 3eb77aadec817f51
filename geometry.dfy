/** The detection zone drawn on every frame and the containment test that
    decides whether a detected bounding box counts (app/camera.py). */
module Geometry {

  /** A rectangle in integer pixel coordinates: (x1, y1) top left, (x2, y2) bottom right. */
  datatype Area = Area(x1: int, y1: int, x2: int, y2: int)

  /** A bounding box as the detector reports it, in real-valued pixel coordinates. */
  datatype Box = Box(x1: real, y1: real, x2: real, y2: real)

  /** Fixed offsets of the zone from the frame centre. */
  const LeftOffset: int := 260
  const RightOffset: int := 160
  const HalfHeight: int := 165

  /** The zone for a frame of the given size (floor division of the size by 2).
      It always has the same size, contains the frame centre, is centred
      vertically and lies 50 pixels left of the horizontal centre. */
  function GreenBoxArea(width: nat, height: nat): (a: Area)
    ensures a.x2 - a.x1 == 420 && a.y2 - a.y1 == 330
    ensures a.x1 < a.x2 && a.y1 < a.y2
    ensures a.x1 < width / 2 < a.x2 && a.y1 < height / 2 < a.y2
    ensures a.y1 + a.y2 == 2 * (height / 2)
    ensures a.x1 + a.x2 == 2 * (width / 2) - 100
  {
    Area(width / 2 - LeftOffset, height / 2 - HalfHeight,
         width / 2 + RightOffset, height / 2 + HalfHeight)
  }

  /** True when the box lies entirely inside the area (edges may touch).
      A box inside is no wider and no taller than the area, and a box that
      is not inverted has its centre (half the sum of its edges) inside the
      area. */
  predicate IsInsideArea(b: Box, a: Area): (r: bool)
    ensures r ==> b.x2 - b.x1 <= (a.x2 - a.x1) as real && b.y2 - b.y1 <= (a.y2 - a.y1) as real
    ensures r && b.x1 <= b.x2 && b.y1 <= b.y2 ==>
              2.0 * a.x1 as real <= b.x1 + b.x2 <= 2.0 * a.x2 as real &&
              2.0 * a.y1 as real <= b.y1 + b.y2 <= 2.0 * a.y2 as real
  {
    b.x1 >= a.x1 as real && b.y1 >= a.y1 as real && b.x2 <= a.x2 as real && b.y2 <= a.y2 as real
  }

  function AreaAsBox(a: Area): Box
  {
    Box(a.x1 as real, a.y1 as real, a.x2 as real, a.y2 as real)
  }

  /** A box that coincides with the area counts as inside. */
  lemma AreaIsInsideItself(a: Area)
    ensures IsInsideArea(AreaAsBox(a), a)
  {
  }

  /** Containment is preserved when the area grows on every side. */
  lemma InsideWiderArea(b: Box, a: Area, wider: Area)
    requires IsInsideArea(b, a)
    requires wider.x1 <= a.x1 && wider.y1 <= a.y1 && a.x2 <= wider.x2 && a.y2 <= wider.y2
    ensures IsInsideArea(b, wider)
  {
  }

  /** A box inside the zone is at most as large as the zone and lies within
      the columns 260 left and 160 right of the frame centre. */
  lemma InsideGreenBoxFits(b: Box, width: nat, height: nat)
    requires IsInsideArea(b, GreenBoxArea(width, height))
    ensures b.x2 - b.x1 <= 420.0 && b.y2 - b.y1 <= 330.0
    ensures (width / 2 - 260) as real <= b.x1 && b.x2 <= (width / 2 + 160) as real
  {
  }
}

/** Where things go on the strip: lane centres, beat rows, the mirror tables,
    the arrow glyph, and the horizontal reflection the mirror option amounts to. */
module Geometry {
  import opened Chart

  /** The strip is the note area plus padding on both sides. */
  const StripWidth: real := Padding * 2.0 + NoteAreaWidth
  const ImageLeft: real := Padding
  const ImageRight: real := StripWidth - Padding

  /** Horizontal centre of a lane: `imageLeft + SZ_LANE * (lane - 0.5)`. The
      slide connector writes the same point as `imageLeft + SZ_LANE * (lane - 1) + SZ_LANE / 2`. */
  function LaneX(lane: int): real
  {
    ImageLeft + LaneWidth * (lane as real - 0.5)
  }

  /** Vertical position of a beat: time grows upward from `bottom`. */
  function Row(bottom: real, beat: real): real
  {
    bottom - beat * BeatHeight
  }

  /** The lane table `[0, 5, 4, 3, 2, 1]` of the mirror option. */
  function MirrorLane(lane: int): (m: int)
    requires 0 <= lane <= 5
    ensures 0 <= m <= 5
    ensures lane == 0 ==> m == 0
    ensures 1 <= lane ==> m == 6 - lane
  {
    [0, 5, 4, 3, 2, 1][lane]
  }

  lemma MirrorLaneInvolution(lane: int)
    requires 0 <= lane <= 5
    ensures MirrorLane(MirrorLane(lane)) == lane
  {
  }

  /** The direction table `[0, 2, 1]` of the mirror option. A status outside
      the table reads as JavaScript's `undefined`, written `None` here. */
  function MirrorStatus(status: int): (m: Option<int>)
    ensures status == 0 ==> m == Some(0)
    ensures status == 1 ==> m == Some(2)
    ensures status == 2 ==> m == Some(1)
    ensures !(0 <= status <= 2) ==> m == None
  {
    if 0 <= status < 3 then Some([0, 2, 1][status]) else None
  }

  /** The arrow drawn for a status: none for 0, pointing left (`r = -1`) for 1,
      pointing right (`r = 1`) for anything else, `undefined` included. */
  function ArrowDir(status: Option<int>): Option<real>
  {
    if status == Some(0) then None
    else if status == Some(1) then Some(-1.0)
    else Some(1.0)
  }

  /** Mirroring swaps left and right arrows and keeps "no arrow"; a status
      outside the table is not swapped, it becomes a right arrow either way. */
  lemma MirrorSwapsArrows(status: int)
    ensures 0 <= status <= 2 ==>
      ArrowDir(MirrorStatus(status)) == (if status == 0 then None else Some(-ArrowDir(Some(status)).value))
    ensures !(0 <= status <= 2) ==> ArrowDir(MirrorStatus(status)) == ArrowDir(Some(status)) == Some(1.0)
  {
  }

  /** The seven points of the chevron, tip at `x + 5r`. */
  function ArrowPath(x: real, y: real, r: real): seq<Point>
  {
    [Point(x - 5.0 * r, y - 1.0), Point(x - 5.0 * r, y + 1.0), Point(x, y + 1.0), Point(x, y + 4.0),
     Point(x + 5.0 * r, y), Point(x, y - 4.0), Point(x, y - 1.0)]
  }

  /** Reflection about the vertical centre line of the strip. */
  function ReflectX(x: real): real
  {
    StripWidth - x
  }

  function ReflectPoints(ps: seq<Point>): (r: seq<Point>)
    ensures |r| == |ps|
    ensures forall i :: 0 <= i < |ps| ==> r[i] == Point(ReflectX(ps[i].x), ps[i].y)
  {
    if ps == [] then [] else [Point(ReflectX(ps[0].x), ps[0].y)] + ReflectPoints(ps[1..])
  }

  /** The horizontal reflection of a shape drawn on the strip; rectangles keep
      their left edge first. Text, copies and gradients are not note shapes
      and are left as they are. */
  function Reflect(c: Command): Command
  {
    match c
    case Rect(sx, sy, ex, ey, fill) => Rect(ReflectX(ex), sy, ReflectX(sx), ey, fill)
    case Line(sx, sy, ex, ey, w, stroke) => Line(ReflectX(sx), sy, ReflectX(ex), ey, w, stroke)
    case Circle(x, y, radius, fill) => Circle(ReflectX(x), y, radius, fill)
    case Polygon(ps, fill) => Polygon(ReflectPoints(ps), fill)
    case _ => c
  }

  function ReflectAll(cs: seq<Command>): (r: seq<Command>)
    ensures |r| == |cs|
    ensures forall i :: 0 <= i < |cs| ==> r[i] == Reflect(cs[i])
  {
    if cs == [] then [] else [Reflect(cs[0])] + ReflectAll(cs[1..])
  }

  lemma ReflectAllAppend(a: seq<Command>, b: seq<Command>)
    ensures ReflectAll(a + b) == ReflectAll(a) + ReflectAll(b)
  {
  }

  /** Mirroring a lane reflects its centre about the strip's centre line. */
  lemma MirrorReflectsLane(lane: int)
    requires 1 <= lane <= 5
    ensures LaneX(MirrorLane(lane)) == ReflectX(LaneX(lane))
  {
  }

  /** The chevron for the opposite direction at the reflected centre is the
      reflection of the chevron. */
  lemma ArrowReflects(x: real, y: real, r: real)
    ensures ArrowPath(ReflectX(x), y, -r) == ReflectPoints(ArrowPath(x, y, r))
  {
    var a, b := ArrowPath(ReflectX(x), y, -r), ReflectPoints(ArrowPath(x, y, r));
    assert forall i :: 0 <= i < 7 ==> a[i] == b[i];
  }
}

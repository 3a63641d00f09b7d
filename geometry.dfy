/** Integer geometry of one bounding box of the labeling viewer: the box record, the
    eight resize-handle hot zones and their classification, the interior test, pointer
    clipping, the rectangle drawn while dragging, and the arithmetic of resizing and
    moving a box. All coordinates are widget pixels. */
module BoxGeometry {

  datatype Point = Point(x: int, y: int)

  /** The category tags a box can carry. */
  datatype Label = Ship | Buoy | Other

  /** The resize handle under the pointer, or Other when the pointer is on none. */
  datatype ResizeMode =
    | TopLeft | Top | TopRight | Right | RightBottom | Bottom | BottomLeft | Left
    | Other

  /** A canvas-relative ratio, kept exactly as (pixels, canvas dimension in pixels). */
  datatype Fraction = Fraction(num: int, den: int)

  /** The ratio a box carries before its first commit: the integer 0. */
  const ZeroRatio := Fraction(0, 1)

  /** One bounding box: its geometry (w and h are not forced to be non-negative),
      its label and the ratios recorded at the last commit. */
  datatype Box = Box(x: int, y: int, w: int, h: int, boxLabel: Label,
                     positionRatio: (Fraction, Fraction), boxRatio: (Fraction, Fraction))

  /** What the viewer reports for a box: x, y, width, height and label. */
  datatype BoxRecord = BoxRecord(x: int, y: int, w: int, h: int, boxLabel: Label)

  /** A geometry as handed to setGeometry: top-left corner and extent. */
  datatype Rect = Rect(x: int, y: int, w: int, h: int)

  /** The size of the viewer widget. */
  datatype Canvas = Canvas(width: nat, height: nat)

  /** Thickness in pixels of every handle zone along the border of a box. */
  const PointCheckRange := 10

  function Min(a: int, b: int): int { if a <= b then a else b }
  function Max(a: int, b: int): int { if a >= b then a else b }

  function Record(b: Box): BoxRecord { BoxRecord(b.x, b.y, b.w, b.h, b.boxLabel) }

  /** The box a left press in labeling mode creates: zero size at the press point. */
  function NewBox(p: Point, l: Label): Box {
    Box(p.x, p.y, 0, 0, l, (ZeroRatio, ZeroRatio), (ZeroRatio, ZeroRatio))
  }

  function WithRect(b: Box, r: Rect): Box { b.(x := r.x, y := r.y, w := r.w, h := r.h) }

  function MoveTo(b: Box, q: Point): Box { b.(x := q.x, y := q.y) }

  /** Records the box's position as fractions of the canvas size. */
  function CommitPosition(b: Box, c: Canvas): Box {
    b.(positionRatio := (Fraction(b.x, c.width), Fraction(b.y, c.height)))
  }

  /** Records the box's extent as fractions of the canvas size. */
  function CommitSize(b: Box, c: Canvas): Box {
    b.(boxRatio := (Fraction(b.w, c.width), Fraction(b.h, c.height)))
  }

  // The three column bands and three row bands the handle zones are built from.
  predicate InLeftBand(b: Box, p: Point) { b.x <= p.x < b.x + PointCheckRange }
  predicate InMiddleColumns(b: Box, p: Point) { b.x + PointCheckRange <= p.x < b.x + b.w - PointCheckRange }
  predicate InRightBand(b: Box, p: Point) { b.x + b.w - PointCheckRange <= p.x < b.x + b.w }
  predicate InTopBand(b: Box, p: Point) { b.y <= p.y < b.y + PointCheckRange }
  predicate InMiddleRows(b: Box, p: Point) { b.y + PointCheckRange <= p.y < b.y + b.h - PointCheckRange }
  predicate InBottomBand(b: Box, p: Point) { b.y + b.h - PointCheckRange <= p.y < b.y + b.h }

  /** The hot zone of handle m holds p (the pointOn* tests of a bounding box). Every
      zone lies outside the box's inset core, and Other has no zone. */
  predicate OnHandle(b: Box, p: Point, m: ResizeMode): (r: bool)
    ensures r ==> m != ResizeMode.Other && !InCore(b, p)
  {
    match m
    case TopLeft => InLeftBand(b, p) && InTopBand(b, p)
    case Top => InMiddleColumns(b, p) && InTopBand(b, p)
    case TopRight => InRightBand(b, p) && InTopBand(b, p)
    case Right => InRightBand(b, p) && InMiddleRows(b, p)
    case RightBottom => InRightBand(b, p) && InBottomBand(b, p)
    case Bottom => InMiddleColumns(b, p) && InBottomBand(b, p)
    case BottomLeft => InLeftBand(b, p) && InBottomBand(b, p)
    case Left => InLeftBand(b, p) && InMiddleRows(b, p)
    case Other => false
  }

  /** Position of a handle in the order the viewer tries them; Other comes last. */
  function Rank(m: ResizeMode): nat {
    match m
    case TopLeft => 0
    case Top => 1
    case TopRight => 2
    case Right => 3
    case RightBottom => 4
    case Bottom => 5
    case BottomLeft => 6
    case Left => 7
    case Other => 8
  }

  /** The handle of b under p: the first handle, in the fixed order TopLeft, Top,
      TopRight, Right, RightBottom, Bottom, BottomLeft, Left, whose zone holds p;
      Other when no zone does. */
  function MouseOnEdge(b: Box, p: Point): (m: ResizeMode)
    ensures m != ResizeMode.Other ==> OnHandle(b, p, m)
    ensures forall g :: Rank(g) < Rank(m) ==> !OnHandle(b, p, g)
  {
    if OnHandle(b, p, TopLeft) then TopLeft
    else if OnHandle(b, p, Top) then Top
    else if OnHandle(b, p, TopRight) then TopRight
    else if OnHandle(b, p, Right) then Right
    else if OnHandle(b, p, RightBottom) then RightBottom
    else if OnHandle(b, p, Bottom) then Bottom
    else if OnHandle(b, p, BottomLeft) then BottomLeft
    else if OnHandle(b, p, Left) then Left
    else ResizeMode.Other
  }

  /** The interior test: half-open in both axes. Only a box at least one pixel wide
      and high holds a point, and every point it holds is on a handle or in its core,
      whatever the box's size. */
  predicate MouseInBox(p: Point, b: Box): (r: bool)
    ensures r ==> b.w >= 1 && b.h >= 1
    ensures r ==> InCore(b, p) || MouseOnEdge(b, p) != ResizeMode.Other
  {
    b.x <= p.x < b.x + b.w && b.y <= p.y < b.y + b.h
  }

  /** The part of the interior that lies on no handle zone. */
  predicate InCore(b: Box, p: Point) {
    InMiddleColumns(b, p) && InMiddleRows(b, p)
  }

  /** When a box is at least one zone thick in each axis, every handle zone lies inside it. */
  lemma HandleZonesInsideBox(b: Box, p: Point, m: ResizeMode)
    requires b.w >= PointCheckRange && b.h >= PointCheckRange
    requires OnHandle(b, p, m)
    ensures MouseInBox(p, b)
  {
    match m
    case TopLeft =>
    case Top =>
    case TopRight =>
    case Right =>
    case RightBottom =>
    case Bottom =>
    case BottomLeft =>
    case Left =>
  }

  /** For a box thinner than one zone, the corner zone reaches outside the box. */
  lemma ThinBoxCornerZoneOutsideBox(b: Box)
    requires 0 <= b.w < PointCheckRange && b.h > 0
    ensures OnHandle(b, Point(b.x + b.w, b.y), TopLeft)
    ensures !MouseInBox(Point(b.x + b.w, b.y), b)
  {
  }

  /** For a box at least two zones wide and high, the zones do not overlap, so the
      classification does not depend on the order in which the handles are tried. */
  lemma HandleZonesDisjoint(b: Box, p: Point, m: ResizeMode)
    requires b.w >= 2 * PointCheckRange && b.h >= 2 * PointCheckRange
    requires OnHandle(b, p, m)
    ensures MouseOnEdge(b, p) == m
  {
    var k := MouseOnEdge(b, p);
    assert OnHandle(b, p, k);
    if k != m {
      match m
      case TopLeft =>
      case Top =>
      case TopRight =>
      case Right =>
      case RightBottom =>
      case Bottom =>
      case BottomLeft =>
      case Left =>
    }
  }

  /** For a box at least two zones wide and high, the handle zones together are exactly
      the border ring of the box: the interior minus its core. */
  lemma HandleRingIsBorder(b: Box, p: Point)
    requires b.w >= 2 * PointCheckRange && b.h >= 2 * PointCheckRange
    ensures MouseOnEdge(b, p) != ResizeMode.Other <==> MouseInBox(p, b) && !InCore(b, p)
  {
    var m := MouseOnEdge(b, p);
    if m != ResizeMode.Other {
      HandleZonesInsideBox(b, p, m);
    }
  }

  /** When a box is narrower than two zones, the TopLeft and TopRight zones overlap and
      the fixed order decides: such a point is classified TopLeft. */
  lemma NarrowBoxCornersOverlap(b: Box)
    requires 0 < b.w < 2 * PointCheckRange && b.h > 0
    ensures OnHandle(b, Point(b.x + b.w / 2, b.y), TopLeft)
    ensures OnHandle(b, Point(b.x + b.w / 2, b.y), TopRight)
    ensures MouseOnEdge(b, Point(b.x + b.w / 2, b.y)) == TopLeft
  {
  }

  /** The pointer clipped into the widget: a coordinate already inside is kept, one
      outside goes to the nearest edge pixel. */
  function ClipCoordinateInWidget(p: Point, c: Canvas): (q: Point)
    ensures c.width >= 1 ==> 0 <= q.x <= c.width - 1
    ensures c.height >= 1 ==> 0 <= q.y <= c.height - 1
    ensures 0 <= p.x < c.width ==> q.x == p.x
    ensures 0 <= p.y < c.height ==> q.y == p.y
    ensures p.x < 0 ==> q.x == 0
    ensures p.y < 0 ==> q.y == 0
    ensures c.width >= 1 && p.x >= c.width ==> q.x == c.width - 1
    ensures c.height >= 1 && p.y >= c.height ==> q.y == c.height - 1
  {
    Point(Max(0, Min(p.x, c.width - 1)), Max(0, Min(p.y, c.height - 1)))
  }

  /** One axis of a rectangle given by two inclusive corner coordinates a and b, after
      normalisation: the corners are swapped only when the width would otherwise be
      negative, that is when b < a - 1. Result is (start, extent). The extent is never
      negative, and unless b == a - 1 the span runs from the lesser to the greater
      coordinate, both included; when b == a - 1 the span is empty at a. */
  function NormalizedSpan(a: int, b: int): (r: (int, int))
    ensures r.1 >= 0
    ensures b != a - 1 ==> r.0 == Min(a, b) && r.0 + r.1 - 1 == Max(a, b)
    ensures b == a - 1 ==> r == (a, 0)
  {
    if b < a - 1 then (b, a - b + 1) else (a, b - a + 1)
  }

  /** The rectangle drawn while dragging from the press point o to the (clipped)
      pointer q, normalised to a non-negative extent. */
  function DragRect(o: Point, q: Point): (r: Rect)
    ensures r.w >= 0 && r.h >= 0
    ensures q.x != o.x - 1 ==> r.x == Min(o.x, q.x) && r.x + r.w - 1 == Max(o.x, q.x)
    ensures q.y != o.y - 1 ==> r.y == Min(o.y, q.y) && r.y + r.h - 1 == Max(o.y, q.y)
    ensures q.x == o.x - 1 ==> r.x == o.x && r.w == 0
    ensures q.y == o.y - 1 ==> r.y == o.y && r.h == 0
  {
    var xs := NormalizedSpan(o.x, q.x);
    var ys := NormalizedSpan(o.y, q.y);
    Rect(xs.0, ys.0, xs.1, ys.1)
  }

  predicate MovesLeftEdge(m: ResizeMode) { m == TopLeft || m == BottomLeft || m == Left }
  predicate MovesRightEdge(m: ResizeMode) { m == TopRight || m == Right || m == RightBottom }
  predicate MovesTopEdge(m: ResizeMode) { m == TopLeft || m == Top || m == TopRight }
  predicate MovesBottomEdge(m: ResizeMode) { m == RightBottom || m == Bottom || m == BottomLeft }

  /** The geometry of box b while handle m is dragged to p: each edge on the handle's
      side goes to the clipped pointer and every other edge stays where it was. No
      normalisation is applied, so an edge dragged past the opposite one leaves a
      negative extent. */
  function GetResizeDimension(b: Box, p: Point, m: ResizeMode, c: Canvas): (r: Rect)
    requires m != ResizeMode.Other
    ensures var q := ClipCoordinateInWidget(p, c);
      && r.x == (if MovesLeftEdge(m) then q.x else b.x)
      && r.x + r.w == (if MovesRightEdge(m) then q.x else b.x + b.w)
      && r.y == (if MovesTopEdge(m) then q.y else b.y)
      && r.y + r.h == (if MovesBottomEdge(m) then q.y else b.y + b.h)
  {
    var left, top := b.x, b.y;
    var right, bottom := left + b.w, top + b.h;
    var q := ClipCoordinateInWidget(p, c);
    match m
    case TopLeft => Rect(q.x, q.y, right - q.x, bottom - q.y)
    case Top => Rect(left, q.y, b.w, bottom - q.y)
    case TopRight => Rect(left, q.y, q.x - left, bottom - q.y)
    case Right => Rect(left, top, q.x - left, b.h)
    case RightBottom => Rect(left, top, q.x - left, q.y - top)
    case Bottom => Rect(left, top, b.w, q.y - top)
    case BottomLeft => Rect(q.x, top, right - q.x, q.y - top)
    case Left => Rect(q.x, top, right - q.x, b.h)
  }

  /** Dragging a handle that moves the right edge to the left of the box's left edge
      (or a left-edge handle past the right edge) gives a negative width. */
  lemma ResizePastOppositeEdgeGivesNegativeWidth(b: Box, p: Point, m: ResizeMode, c: Canvas)
    requires m != ResizeMode.Other
    ensures var q := ClipCoordinateInWidget(p, c);
      var r := GetResizeDimension(b, p, m, c);
      && (MovesRightEdge(m) ==> (r.w < 0 <==> q.x < b.x))
      && (MovesLeftEdge(m) ==> (r.w < 0 <==> q.x > b.x + b.w))
      && (MovesBottomEdge(m) ==> (r.h < 0 <==> q.y < b.y))
      && (MovesTopEdge(m) ==> (r.h < 0 <==> q.y > b.y + b.h))
  {
  }

  /** The clamp applied to one coordinate of a moved box. */
  function ClampAxis(v: int, extent: int, size: int): int {
    Max(0, Min(v, size - extent - 1))
  }

  /** Where a box goes when the pointer is at p during a move that grabbed it at offset
      off from its top-left corner: the pointer minus the offset, clamped so the corner
      is never negative and the far edge stays at most at the last pixel minus one. */
  function MovedPosition(b: Box, p: Point, off: Point, c: Canvas): (q: Point)
    ensures q.x >= 0 && q.y >= 0
    ensures b.w <= c.width - 1 ==> q.x + b.w <= c.width - 1
    ensures b.h <= c.height - 1 ==> q.y + b.h <= c.height - 1
    ensures 0 <= p.x - off.x <= c.width - b.w - 1 ==> q.x == p.x - off.x
    ensures 0 <= p.y - off.y <= c.height - b.h - 1 ==> q.y == p.y - off.y
    ensures p.x - off.x < 0 ==> q.x == 0
    ensures p.y - off.y < 0 ==> q.y == 0
    ensures p.x - off.x > c.width - b.w - 1 ==> q.x == Max(0, c.width - b.w - 1)
    ensures p.y - off.y > c.height - b.h - 1 ==> q.y == Max(0, c.height - b.h - 1)
  {
    Point(ClampAxis(p.x - off.x, b.w, c.width), ClampAxis(p.y - off.y, b.h, c.height))
  }

  /** A box whose right edge is on the canvas border (which a drawn box can be) is
      pushed one pixel left by a move in which the pointer has not moved at all,
      whatever the offset at which the box was grabbed. */
  lemma StillMoveShiftsBorderBox(b: Box, off: Point, c: Canvas)
    requires b.x >= 1 && b.x + b.w == c.width
    ensures MovedPosition(b, Point(b.x + off.x, b.y + off.y), off, c).x == b.x - 1
  {
  }
}

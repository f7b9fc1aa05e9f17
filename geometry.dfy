/**
 * The placement arithmetic of one layout pass: where the circle is, where the
 * centre label goes, and the steps that take a ring label from its angle to
 * its final pixel position (candidate point, anchor corner, horizontal clamp,
 * overlap correction against the centre label, truncation).
 *
 * Screen coordinates: X grows to the right, Y grows downward. Angles are in
 * radians, 0 pointing east and increasing counter-clockwise.
 */
module Geometry {
  import opened JavaInt

  /** Java's `Math.PI`. */
  const PI: real := 3.141592653589793
  /** The factor `Math.toRadians` multiplies a degree value by. */
  const DEGREES_TO_RADIANS: real := 0.017453292519943295

  datatype Point = Point(x: real, y: real)

  /** An axis-aligned box given by its closed X and Y extents. */
  datatype Box = Box(minX: real, maxX: real, minY: real, maxY: real) {
    predicate WellFormed() { minX <= maxX && minY <= maxY }
    predicate Contains(p: Point) { minX <= p.x <= maxX && minY <= p.y <= maxY }
  }

  /** The box of a view whose top-left corner is (x, y). */
  function SizedBox(x: real, y: real, width: int, height: int): Box {
    Box(x, x + width as real, y, y + height as real)
  }

  function Sq(r: real): real { r * r }

  function Abs(r: real): real { if r < 0.0 then -r else r }

  /**
   * `Math.toRadians`. It keeps the sign, and the cardinal angles of 90, 180 and
   * 270 degrees land on (not short of) the quadrant bounds pi/2, pi and 3pi/2
   * that the anchor-corner test compares against.
   */
  function ToRadians(degrees: real): (r: real)
    ensures 0.0 < degrees <==> 0.0 < r
    ensures degrees < 0.0 <==> r < 0.0
    ensures 90.0 <= degrees ==> PI * 0.5 <= r
    ensures 180.0 <= degrees ==> PI <= r
    ensures 270.0 <= degrees ==> PI * 1.5 <= r
  {
    degrees * DEGREES_TO_RADIANS
  }

  /** The centre of the circle view, from its position and size. */
  function CircleCenter(x: real, y: real, width: int, height: int): (c: Point)
    ensures c.x - x == (x + width as real) - c.x
    ensures c.y - y == (y + height as real) - c.y
  {
    Point(x + width as real * 0.5, y + height as real * 0.5)
  }

  /** The radius of the circle drawn in a view of the given size. */
  function CircleRadius(width: int, height: int): (r: real)
    ensures 2.0 * r <= width as real && 2.0 * r <= height as real
    ensures 2.0 * r == width as real || 2.0 * r == height as real
  {
    (if width <= height then width else height) as real * 0.5
  }

  /**
   * The top-left corner given to the centre label: its own centre is put on
   * the circle's centre, then each coordinate is cast to `int`. Whenever the
   * cast does not saturate, the label's centre is within one pixel of the
   * circle's centre on each axis.
   */
  function CenterLabelOrigin(center: Point, width: int, height: int): (o: (Int32, Int32))
    ensures var left := center.x - width as real * 0.5;
      INT_MIN as real <= left <= INT_MAX as real ==>
        -1.0 < o.0 as real + width as real * 0.5 - center.x < 1.0
    ensures var top := center.y - height as real * 0.5;
      INT_MIN as real <= top <= INT_MAX as real ==>
        -1.0 < o.1 as real + height as real * 0.5 - center.y < 1.0
  {
    (ToInt(center.x - width as real * 0.5), ToInt(center.y - height as real * 0.5))
  }

  /**
   * The centre label's box as the ring-label loop sees it: the right and
   * bottom edges are computed with Java `int` addition.
   */
  function CenterLabelBox(origin: (Int32, Int32), width: Int32, height: Int32): (b: Box)
    ensures INT_MIN <= origin.0 + width <= INT_MAX && INT_MIN <= origin.1 + height <= INT_MAX ==>
      b == SizedBox(origin.0 as real, origin.1 as real, width, height)
  {
    Box(origin.0 as real, AddInt(origin.0, width) as real,
        origin.1 as real, AddInt(origin.1, height) as real)
  }

  /**
   * Whether the label's box and the centre label's box overlap: their closed
   * X intervals and their closed Y intervals both intersect, so boxes that
   * only touch along an edge do overlap.
   */
  function IsOverlapping(labelBox: Box, center: Box): (r: bool)
    ensures r <==> labelBox.minX <= center.maxX && center.minX <= labelBox.maxX &&
                   labelBox.minY <= center.maxY && center.minY <= labelBox.maxY
  {
    !(labelBox.minY > center.maxY || labelBox.maxY < center.minY ||
      labelBox.minX > center.maxX || labelBox.maxX < center.minX)
  }

  /** Two well-formed boxes overlap exactly when some point lies in both. */
  lemma OverlapMeansCommonPoint(labelBox: Box, center: Box)
    requires labelBox.WellFormed() && center.WellFormed()
    ensures IsOverlapping(labelBox, center) <==> exists p :: labelBox.Contains(p) && center.Contains(p)
  {
    if IsOverlapping(labelBox, center) {
      var p := Point(if labelBox.minX < center.minX then center.minX else labelBox.minX,
                     if labelBox.minY < center.minY then center.minY else labelBox.minY);
      assert labelBox.Contains(p) && center.Contains(p);
    }
  }

  /**
   * Whether an overlapping label should be moved in the +Y direction (the
   * source calls it "up"): exactly when that move, which brings the label's
   * top edge to the centre label's bottom edge, is strictly shorter than the
   * move bringing its bottom edge to the centre label's top edge. Equivalently,
   * the label's vertical midpoint lies strictly below the centre label's; a
   * tie moves the label in the -Y direction.
   */
  function ShouldMoveLabelUp(labelMinY: real, labelMaxY: real,
                             centerMinY: real, centerMaxY: real): (up: bool)
    ensures up <==> centerMinY + centerMaxY < labelMinY + labelMaxY
  {
    centerMaxY - labelMinY < labelMaxY - centerMinY
  }

  /**
   * The point on the label circle at the given angle, with cosA and sinA the
   * cosine and sine of that angle. Screen Y is inverted relative to the unit
   * circle: a positive sine puts the point above the centre (smaller Y), a
   * positive cosine to its right. When (cosA, sinA) is a point of the unit
   * circle, the candidate point lies at distance labelRadius from the centre.
   */
  function CandidatePoint(center: Point, labelRadius: real, cosA: real, sinA: real): (p: Point)
    ensures Sq(cosA) + Sq(sinA) == 1.0 ==>
      Sq(p.x - center.x) + Sq(p.y - center.y) == Sq(labelRadius)
    ensures 0.0 < labelRadius ==> (center.x < p.x <==> 0.0 < cosA) && (p.y < center.y <==> 0.0 < sinA)
  {
    var p := Point(center.x + cosA * labelRadius, center.y - sinA * labelRadius);
    assert Sq(p.x - center.x) + Sq(p.y - center.y) == (Sq(cosA) + Sq(sinA)) * Sq(labelRadius);
    p
  }

  /**
   * A worked example: on a circle centred at (50, 50) with label radius 150,
   * angle 0 (cosine 1, sine 0) puts the candidate point at (200, 50), and
   * angle pi/2 (cosine 0, sine 1) puts it straight above the centre.
   */
  lemma CandidatePointExample()
    ensures CandidatePoint(Point(50.0, 50.0), 150.0, 1.0, 0.0) == Point(200.0, 50.0)
    ensures CandidatePoint(Point(50.0, 50.0), 150.0, 0.0, 1.0) == Point(50.0, -100.0)
  {
  }

  /** The corner of a ring label's box that is pinned to its candidate point. */
  datatype Corner = BottomLeft | BottomRight | TopRight | TopLeft

  /** The anchor corner, by the quadrant the angle falls in. */
  function AnchorCorner(angle: real): Corner {
    if angle < PI * 0.5 then BottomLeft
    else if angle < PI then BottomRight
    else if angle < PI * 1.5 then TopRight
    else TopLeft
  }

  /** The named corner of a box (the bottom edge is the one with the larger Y). */
  function CornerOf(b: Box, c: Corner): Point {
    match c
    case BottomLeft => Point(b.minX, b.maxY)
    case BottomRight => Point(b.maxX, b.maxY)
    case TopRight => Point(b.maxX, b.minY)
    case TopLeft => Point(b.minX, b.minY)
  }

  /**
   * The segments centred on the cardinal angles of the circle view (measured
   * clockwise from 3 o'clock, so the top is 270 degrees): a segment at 0
   * degrees gets the angle 2pi and its label is not shifted, so with the
   * worked example's circle it sits with its top-left corner on (200, 50); at
   * 90, 180 and 270 degrees the angle lands on or just past a quadrant bound
   * (with exact arithmetic, just past it) and takes the branch above it.
   */
  lemma CardinalAnchors(width: int, height: int)
    ensures Anchor(CandidatePoint(Point(50.0, 50.0), 150.0, 1.0, 0.0), ToRadians(360.0 - 0.0), width, height)
         == Point(200.0, 50.0)
    ensures PI * 1.5 < ToRadians(360.0 - 90.0) && PI < ToRadians(360.0 - 180.0)
    ensures PI * 0.5 < ToRadians(360.0 - 270.0)
    ensures AnchorCorner(ToRadians(360.0 - 0.0)) == TopLeft
    ensures AnchorCorner(ToRadians(360.0 - 90.0)) == TopLeft
    ensures AnchorCorner(ToRadians(360.0 - 180.0)) == TopRight
    ensures AnchorCorner(ToRadians(360.0 - 270.0)) == BottomRight
  {
  }

  /**
   * The top-left corner of a ring label of the given size whose anchor corner
   * sits on the candidate point p. The label is shifted left by its width
   * exactly for angles in [pi/2, 3pi/2), shifted up by its height exactly for
   * angles below pi, and not moved at all for angles from 3pi/2 on.
   */
  function Anchor(p: Point, angle: real, width: int, height: int): (r: Point)
    ensures CornerOf(SizedBox(r.x, r.y, width, height), AnchorCorner(angle)) == p
    ensures r.x == if PI * 0.5 <= angle < PI * 1.5 then p.x - width as real else p.x
    ensures r.y == if angle < PI then p.y - height as real else p.y
    ensures PI * 1.5 <= angle ==> r == p
  {
    match AnchorCorner(angle)
    case BottomLeft => Point(p.x, p.y - height as real)
    case BottomRight => Point(p.x - width as real, p.y - height as real)
    case TopRight => Point(p.x - width as real, p.y)
    case TopLeft => p
  }

  /**
   * The horizontal clamp against the window: a label left of 0 is put at 0;
   * otherwise one whose right edge passes maxX is shifted left until that edge
   * is on maxX; otherwise it stays. When the label fits the window, the result
   * keeps the whole label on screen, and a label already on screen is not
   * moved (so clamping twice is clamping once).
   */
  function ClampX(x: real, width: int, maxX: int): (r: real)
    ensures x < 0.0 ==> r == 0.0
    ensures 0.0 <= x && x + width as real > maxX as real ==> r + width as real == maxX as real
    ensures 0.0 <= x && x + width as real <= maxX as real ==> r == x
    ensures 0 <= width <= maxX ==> 0.0 <= r && r + width as real <= maxX as real
  {
    if x < 0.0 then 0.0
    else if x + width as real > maxX as real then x - (x + width as real - maxX as real)
    else x
  }

  /** Clamping a label that fits the window a second time leaves it where it is. */
  lemma ClampXIdempotent(x: real, width: int, maxX: int)
    requires 0 <= width <= maxX
    ensures ClampX(ClampX(x, width, maxX), width, maxX) == ClampX(x, width, maxX)
  {
  }

  /** A label with top edge y clears the centre label's Y extent (edges may touch). */
  predicate ClearsVertically(y: real, height: int, center: Box) {
    y >= center.maxY || y + height as real <= center.minY
  }

  /**
   * The overlap correction: the new Y of a label whose top-left corner is
   * (x, y). A label that does not overlap the centre label keeps its Y. An
   * overlapping one is moved vertically so that it touches the centre label:
   * its top edge onto the centre label's bottom edge when ShouldMoveLabelUp
   * holds, its bottom edge onto the centre label's top edge otherwise. No other
   * vertical position that clears the centre label is closer to the original.
   */
  function ResolveOverlap(x: real, y: real, width: int, height: int, center: Box): (r: real)
    ensures !IsOverlapping(SizedBox(x, y, width, height), center) ==> r == y
    ensures IsOverlapping(SizedBox(x, y, width, height), center) &&
            ShouldMoveLabelUp(y, y + height as real, center.minY, center.maxY) ==>
              r == center.maxY
    ensures IsOverlapping(SizedBox(x, y, width, height), center) &&
            !ShouldMoveLabelUp(y, y + height as real, center.minY, center.maxY) ==>
              r + height as real == center.minY
    ensures IsOverlapping(SizedBox(x, y, width, height), center) ==> ClearsVertically(r, height, center)
    ensures forall y' :: ClearsVertically(y', height, center) ==> Abs(r - y) <= Abs(y' - y)
  {
    var box := SizedBox(x, y, width, height);
    if IsOverlapping(box, center) then
      if ShouldMoveLabelUp(box.minY, box.maxY, center.minY, center.maxY)
      then y + (center.maxY - box.minY)
      else y - (box.maxY - center.minY)
    else y
  }

  /**
   * The real-valued position of a ring label before the overlap correction:
   * candidate point, then anchor corner, then horizontal clamp. Only X is
   * clamped; the anchored Y is kept, and a label that fits the window lies
   * wholly within it.
   */
  function ClampedAnchor(center: Point, labelRadius: real, angle: real, cosA: real, sinA: real,
                         width: int, height: int, maxX: int): (p: Point)
    ensures p.y == Anchor(CandidatePoint(center, labelRadius, cosA, sinA), angle, width, height).y
    ensures 0 <= width <= maxX ==> 0.0 <= p.x && p.x + width as real <= maxX as real
  {
    var a := Anchor(CandidatePoint(center, labelRadius, cosA, sinA), angle, width, height);
    Point(ClampX(a.x, width, maxX), a.y)
  }

  /**
   * The final pixel position of one ring label: the casts of the clamped
   * anchor's X and of its Y after the overlap correction. The correction never
   * moves X, and moves Y only when the label overlaps the centre label.
   */
  function RingLabelPlacement(center: Point, labelRadius: real, angle: real, cosA: real, sinA: real,
                              width: Int32, height: Int32, maxX: Int32,
                              centerOrigin: (Int32, Int32), centerWidth: Int32, centerHeight: Int32)
    : (r: (Int32, Int32))
    ensures var p := ClampedAnchor(center, labelRadius, angle, cosA, sinA, width, height, maxX);
      r.0 == ToInt(p.x)
    ensures var p := ClampedAnchor(center, labelRadius, angle, cosA, sinA, width, height, maxX);
      !IsOverlapping(SizedBox(p.x, p.y, width, height), CenterLabelBox(centerOrigin, centerWidth, centerHeight)) ==>
        r.1 == ToInt(p.y)
  {
    var p := ClampedAnchor(center, labelRadius, angle, cosA, sinA, width, height, maxX);
    var box := CenterLabelBox(centerOrigin, centerWidth, centerHeight);
    (ToInt(p.x), ToInt(ResolveOverlap(p.x, p.y, width, height, box)))
  }

  /**
   * A ring label that fits the window ends up wholly within [0, maxX]
   * horizontally, whatever its angle, and even after the cast to `int`.
   */
  lemma RingLabelWithinWindow(center: Point, labelRadius: real, angle: real, cosA: real, sinA: real,
                              width: Int32, height: Int32, maxX: Int32,
                              centerOrigin: (Int32, Int32), centerWidth: Int32, centerHeight: Int32)
    requires 0 <= width <= maxX
    ensures var r := RingLabelPlacement(center, labelRadius, angle, cosA, sinA, width, height, maxX,
                                        centerOrigin, centerWidth, centerHeight);
      0 <= r.0 && r.0 + width <= maxX
  {
    var p := ClampedAnchor(center, labelRadius, angle, cosA, sinA, width, height, maxX);
    ToIntMonotone(p.x, (maxX - width) as real);
    ToIntWhole(maxX - width);
  }

  /**
   * With exact arithmetic, a ring label that overlapped the centre label
   * after the clamp ends up touching it exactly: the centre label's edges are whole pixels, so the
   * cast to `int` does not disturb the corrected Y (provided, when it is moved
   * in the -Y direction, that its new Y fits in an `int`).
   */
  lemma RingLabelTouchesCenterLabel(center: Point, labelRadius: real, angle: real, cosA: real, sinA: real,
                                    width: Int32, height: Int32, maxX: Int32,
                                    centerOrigin: (Int32, Int32), centerWidth: Int32, centerHeight: Int32)
    ensures var p := ClampedAnchor(center, labelRadius, angle, cosA, sinA, width, height, maxX);
      var box := CenterLabelBox(centerOrigin, centerWidth, centerHeight);
      var r := RingLabelPlacement(center, labelRadius, angle, cosA, sinA, width, height, maxX,
                                  centerOrigin, centerWidth, centerHeight);
      IsOverlapping(SizedBox(p.x, p.y, width, height), box) ==>
        if ShouldMoveLabelUp(p.y, p.y + height as real, box.minY, box.maxY)
        then r.1 == AddInt(centerOrigin.1, centerHeight)
        else (INT_MIN <= centerOrigin.1 - height <= INT_MAX ==> r.1 + height == centerOrigin.1)
  {
    var p := ClampedAnchor(center, labelRadius, angle, cosA, sinA, width, height, maxX);
    var box := CenterLabelBox(centerOrigin, centerWidth, centerHeight);
    var y := ResolveOverlap(p.x, p.y, width, height, box);
    if IsOverlapping(SizedBox(p.x, p.y, width, height), box) {
      if ShouldMoveLabelUp(p.y, p.y + height as real, box.minY, box.maxY) {
        ToIntWhole(AddInt(centerOrigin.1, centerHeight));
      } else if INT_MIN <= centerOrigin.1 - height <= INT_MAX {
        assert y == (centerOrigin.1 - height) as real;
        ToIntWhole(centerOrigin.1 - height);
      }
    }
  }
}

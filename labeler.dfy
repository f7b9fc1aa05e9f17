/**
 * The layout that surrounds a composite circle view with labels: a centre
 * label on the circle's centre and one ring label per segment, placed on a
 * circle whose radius is a multiple of the circle view's radius.
 */
module Labeler {
  import opened JavaInt
  import opened Geometry
  import opened Views

  /** What the layout pass reads of one segment of the circle view. */
  datatype Segment = Segment(value: real, centerAngle: real)

  /**
   * What the layout pass reads of the circle view it finds by id: its
   * position, its size, and per segment the value and the centre angle in
   * degrees.
   */
  datatype CircleView = CircleView(x: real, y: real, width: Int32, height: Int32, segments: seq<Segment>)

  /** The visibility a ring label gets: shown exactly when its segment's value is positive. */
  function SegmentVisibility(value: real): (v: Visibility)
    ensures v == Visible <==> value > 0.0
    ensures v != Visible ==> v == Gone
  {
    if value > 0.0 then Visible else Gone
  }

  /**
   * The placement of one ring label, step by step as the layout pass does it:
   * the candidate point on the label circle, the anchor-corner shift, the
   * horizontal clamp against the window's right edge maxX, the vertical move
   * off the centre label, and the cast to whole pixels. The centre label's
   * box has its top-left corner at (centerLabelX, centerLabelY).
   */
  method PlaceRingLabel(center: Point, labelRadius: real, angle: real, cosA: real, sinA: real,
                        width: Int32, height: Int32, maxX: Int32,
                        centerLabelX: Int32, centerLabelY: Int32, centerWidth: Int32, centerHeight: Int32)
    returns (finalX: Int32, finalY: Int32)
    ensures (finalX, finalY) == RingLabelPlacement(center, labelRadius, angle, cosA, sinA, width, height, maxX,
                                                   (centerLabelX, centerLabelY), centerWidth, centerHeight)
  {
    var x := center.x + cosA * labelRadius;
    var y := center.y - sinA * labelRadius;
    ghost var candidate := Point(x, y);
    assert candidate == CandidatePoint(center, labelRadius, cosA, sinA);

    // Anchor corner.
    if angle < PI * 0.5 {
      y := y - height as real;
    } else if angle < PI {
      x := x - width as real;
      y := y - height as real;
    } else if angle < PI * 1.5 {
      x := x - width as real;
    }
    assert Point(x, y) == Anchor(candidate, angle, width, height);
    ghost var anchoredX := x;

    // Horizontal clamp against the window.
    var offset := 0.0;
    if x < 0.0 {
      x := 0.0;
    } else if x + width as real > maxX as real {
      offset := x + width as real - maxX as real;
      x := x - offset;
    }
    assert x == ClampX(anchoredX, width, maxX);

    // Overlap with the centre label.
    var labelMinX, labelMaxX := x, x + width as real;
    var labelMinY, labelMaxY := y, y + height as real;
    var centerLabelMinX := centerLabelX as real;
    var centerLabelMaxX := AddInt(centerLabelX, centerWidth) as real;
    var centerLabelMinY := centerLabelY as real;
    var centerLabelMaxY := AddInt(centerLabelY, centerHeight) as real;
    ghost var box := Box(labelMinX, labelMaxX, labelMinY, labelMaxY);
    ghost var centerBox := Box(centerLabelMinX, centerLabelMaxX, centerLabelMinY, centerLabelMaxY);
    assert box == SizedBox(x, labelMinY, width, height);
    assert centerBox == CenterLabelBox((centerLabelX, centerLabelY), centerWidth, centerHeight);
    if IsOverlapping(Box(labelMinX, labelMaxX, labelMinY, labelMaxY),
                     Box(centerLabelMinX, centerLabelMaxX, centerLabelMinY, centerLabelMaxY)) {
      if ShouldMoveLabelUp(labelMinY, labelMaxY, centerLabelMinY, centerLabelMaxY) {
        y := y + (centerLabelMaxY - labelMinY);
      } else {
        y := y - (labelMaxY - centerLabelMinY);
      }
    }
    assert Point(x, labelMinY) == ClampedAnchor(center, labelRadius, angle, cosA, sinA, width, height, maxX);
    assert y == ResolveOverlap(x, labelMinY, width, height, centerBox);

    finalX, finalY := ToInt(x), ToInt(y);
  }

  /** Where a layout pass puts the centre label. */
  function CenterLabelTarget(ccv: CircleView, centerLabel: TextView): (o: (Int32, Int32))
    ensures var left := ccv.x + ccv.width as real * 0.5 - centerLabel.width as real * 0.5;
      (0.0 <= left <= INT_MAX as real ==> left - 1.0 < o.0 as real <= left) &&
      (INT_MIN as real <= left < 0.0 ==> left <= o.0 as real < left + 1.0)
    ensures var top := ccv.y + ccv.height as real * 0.5 - centerLabel.height as real * 0.5;
      (0.0 <= top <= INT_MAX as real ==> top - 1.0 < o.1 as real <= top) &&
      (INT_MIN as real <= top < 0.0 ==> top <= o.1 as real < top + 1.0)
  {
    CenterLabelOrigin(CircleCenter(ccv.x, ccv.y, ccv.width, ccv.height),
                      centerLabel.width, centerLabel.height)
  }

  /**
   * What a layout pass computes once, before placing the ring labels: the
   * circle's centre, the radius of the circle the ring labels sit on, and the
   * centre label's top-left corner.
   */
  datatype PassGeometry = PassGeometry(center: Point, labelRadius: real, centerOrigin: (Int32, Int32))

  function LayoutGeometry(ccv: CircleView, labelRadiusScalar: real, centerLabel: TextView): (g: PassGeometry)
    ensures 0 <= ccv.width && 0 <= ccv.height && 0.0 <= labelRadiusScalar ==> 0.0 <= g.labelRadius
  {
    var radius := CircleRadius(ccv.width, ccv.height);
    assert 0 <= ccv.width && 0 <= ccv.height ==> 0.0 <= radius;
    assert 0.0 <= radius && 0.0 <= labelRadiusScalar ==> 0.0 <= radius * labelRadiusScalar;
    PassGeometry(CircleCenter(ccv.x, ccv.y, ccv.width, ccv.height),
                 radius * labelRadiusScalar,
                 CenterLabelTarget(ccv, centerLabel))
  }

  /**
   * Where a layout pass with geometry g puts the ring label of segment i,
   * given the window's right edge and the cosine and sine functions.
   */
  function RingLabelTarget(g: PassGeometry, ccv: CircleView, maxX: Int32, cos: real -> real, sin: real -> real,
                           centerLabel: TextView, ringLabel: TextView, i: nat)
    : (Int32, Int32)
    requires i < |ccv.segments|
  {
    var angle := ToRadians(360.0 - ccv.segments[i].centerAngle);
    RingLabelPlacement(g.center, g.labelRadius, angle, cos(angle), sin(angle),
                       ringLabel.measuredWidth, ringLabel.measuredHeight, maxX,
                       g.centerOrigin, centerLabel.width, centerLabel.height)
  }

  /**
   * Whatever its segment's angle, a ring label whose measured width fits the
   * window is placed by a layout pass wholly within [0, maxX].
   */
  lemma RingLabelTargetWithinWindow(g: PassGeometry, ccv: CircleView, maxX: Int32,
                                    cos: real -> real, sin: real -> real,
                                    centerLabel: TextView, ringLabel: TextView, i: nat)
    requires i < |ccv.segments|
    requires 0 <= ringLabel.measuredWidth <= maxX
    ensures var r := RingLabelTarget(g, ccv, maxX, cos, sin, centerLabel, ringLabel, i);
      0 <= r.0 && r.0 + ringLabel.measuredWidth <= maxX
  {
    var angle := ToRadians(360.0 - ccv.segments[i].centerAngle);
    RingLabelWithinWindow(g.center, g.labelRadius, angle, cos(angle), sin(angle),
                          ringLabel.measuredWidth, ringLabel.measuredHeight, maxX,
                          g.centerOrigin, centerLabel.width, centerLabel.height);
  }

  /**
   * One turn of the layout loop: the ring label of segment i gets the
   * visibility its segment's value calls for and its placement, computed from
   * the pass's geometry g, which the caller holds as plain values.
   */
  method LayOutRingLabel(ringLabel: TextView, ccv: CircleView, i: nat, maxX: Int32,
                         cos: real -> real, sin: real -> real, centerLabel: TextView, ghost g: PassGeometry,
                         ccvCenterX: real, ccvCenterY: real, labelRadius: real,
                         centerLabelX: Int32, centerLabelY: Int32)
    requires i < |ccv.segments|
    requires g == PassGeometry(Point(ccvCenterX, ccvCenterY), labelRadius, (centerLabelX, centerLabelY))
    modifies ringLabel
    ensures ringLabel.visibility == SegmentVisibility(ccv.segments[i].value)
    ensures (ringLabel.x, ringLabel.y) == RingLabelTarget(g, ccv, maxX, cos, sin, centerLabel, ringLabel, i)
  {
    ringLabel.visibility := if ccv.segments[i].value > 0.0 then Visible else Gone;
    var width := ringLabel.measuredWidth;
    var height := ringLabel.measuredHeight;

    var angle := ToRadians(360.0 - ccv.segments[i].centerAngle);
    var x, y := PlaceRingLabel(Point(ccvCenterX, ccvCenterY), labelRadius, angle, cos(angle), sin(angle),
                               width, height, maxX, centerLabelX, centerLabelY,
                               centerLabel.width, centerLabel.height);
    ringLabel.x := x;
    ringLabel.y := y;
  }

  /** No non-null entry occurs twice. */
  predicate Distinct(views: seq<TextView?>) {
    forall i, j :: 0 <= i < j < |views| && views[i] != null ==> views[i] != views[j]
  }

  class CompositeCircleViewLabeler {
    /** The layout's children, in order. */
    var children: seq<Child>
    var circleId: int
    var centerLabel: TextView?
    /** One entry per segment of the circle; null where a segment has no label. */
    var labels: seq<TextView?>
    var labelRadiusScalar: real

    /**
     * Each label is attached at most once: no ring label is repeated and the
     * centre label is not a ring label.
     */
    ghost predicate Valid()
      reads this
    {
      Distinct(labels) && (centerLabel != null ==> centerLabel !in labels)
    }

    /** The text views a layout pass may write to. */
    ghost function LabelViews(): set<TextView?>
      reads this
    {
      {centerLabel} + set i | 0 <= i < |labels| :: labels[i]
    }

    /** A layout whose children come from its layout resource, before any configuration. */
    constructor (children: seq<Child>)
      ensures this.children == children
      ensures centerLabel == null && labels == [] && Valid()
    {
      this.children := children;
      circleId, centerLabel, labels, labelRadiusScalar := 0, null, [], 0.0;
    }

    /**
     * The first loop of `configure`: walks the children by index and removes
     * each text view in place, stepping the index back after a removal so that
     * the child that slid into its place is examined next. The other children
     * stay, in their order.
     */
    method RemoveTextChildren()
      modifies this`children
      ensures children == WithoutText(old(children))
    {
      var i: int := 0;
      ghost var k := 0;
      while i < |children|
        invariant 0 <= i <= |children|
        invariant 0 <= k <= |old(children)|
        invariant children[..i] == WithoutText(old(children)[..k])
        invariant children[i..] == old(children)[k..]
        decreases |children| - i
      {
        WithoutTextStep(children, old(children), i, k);
        if children[i].TextChild? {
          children := children[..i] + children[i + 1..];
          i := i - 1;
        }
        i := i + 1;
        k := k + 1;
      }
      assert old(children)[..k] == old(children);
    }

    /**
     * The second loop of `configure`: appends a child for each non-null ring
     * label, in index order.
     */
    method AttachLabels(labels: seq<TextView?>)
      modifies this`children
      ensures children == old(children) + LabelChildren(labels)
    {
      for j := 0 to |labels|
        invariant children == old(children) + LabelChildren(labels[..j])
      {
        assert labels[..j + 1] == labels[..j] + [labels[j]];
        LabelChildrenSnoc(labels[..j], labels[j]);
        if labels[j] != null {
          assert old(children) + LabelChildren(labels[..j]) + [TextChild(labels[j])]
              == old(children) + (LabelChildren(labels[..j]) + [TextChild(labels[j])]);
          children := children + [TextChild(labels[j])];
        }
      }
      assert labels[..|labels|] == labels;
    }

    /**
     * Removes every text view child, then attaches the centre label (if any)
     * and each non-null ring label in index order, and keeps the circle id,
     * the labels and the radius scalar for the layout pass. A view can be
     * attached to only one parent, so no label may be given twice.
     */
    method Configure(circleId: int, centerLabel: TextView?, labels: seq<TextView?>,
                     labelRadiusScalar: real)
      requires Distinct(labels)
      requires centerLabel != null ==> centerLabel !in labels
      modifies this
      ensures children == ConfiguredChildren(old(children), centerLabel, labels)
      ensures this.circleId == circleId && this.centerLabel == centerLabel
      ensures this.labels == labels && this.labelRadiusScalar == labelRadiusScalar
      ensures Valid()
    {
      // Remove previous text content first.
      RemoveTextChildren();
      ghost var kept := children;
      this.circleId := circleId;
      this.centerLabel := centerLabel;
      if centerLabel != null {
        children := children + [TextChild(centerLabel)];
      }
      this.labels := labels;
      AttachLabels(labels);
      this.labelRadiusScalar := labelRadiusScalar;
      assert children == kept + CenterChild(centerLabel) + LabelChildren(labels);
    }

    /**
     * One layout pass. The circle view found by id, the window's right edge
     * and the cosine and sine functions are given. The centre label is put on
     * the circle's centre; every non-null ring label, shown or not, gets the
     * visibility its segment's value calls for and its placement; nothing
     * else is written.
     */
    method OnLayout(ccv: CircleView, maxX: Int32, cos: real -> real, sin: real -> real)
      requires Valid()
      requires centerLabel != null
      requires forall i :: 0 <= i < |labels| && labels[i] != null ==> i < |ccv.segments|
      modifies LabelViews()
      ensures (centerLabel.x, centerLabel.y) == CenterLabelTarget(ccv, centerLabel)
      ensures centerLabel.visibility == old(centerLabel.visibility)
      ensures forall i :: 0 <= i < |labels| && labels[i] != null ==>
        labels[i].visibility == SegmentVisibility(ccv.segments[i].value) &&
        (labels[i].x, labels[i].y) ==
          RingLabelTarget(LayoutGeometry(ccv, labelRadiusScalar, centerLabel), ccv, maxX, cos, sin,
                          centerLabel, labels[i], i)
    {
      // The fields are only read during layout; read them once.
      var centerView := centerLabel;
      var ringLabels := labels;
      var scalar := labelRadiusScalar;

      // Gather the circle's geometry.
      var ccvWidth := ccv.width;
      var ccvHeight := ccv.height;
      var ccvCenterX := ccv.x + ccvWidth as real * 0.5;
      var ccvCenterY := ccv.y + ccvHeight as real * 0.5;
      var ccvRadius := (if ccvWidth <= ccvHeight then ccvWidth else ccvHeight) as real * 0.5;
      var labelRadius := ccvRadius * scalar;
      var centerLabelX := ToInt(ccvCenterX - centerView.width as real * 0.5);
      var centerLabelY := ToInt(ccvCenterY - centerView.height as real * 0.5);

      ghost var g := LayoutGeometry(ccv, scalar, centerView);
      assert g == PassGeometry(Point(ccvCenterX, ccvCenterY), labelRadius, (centerLabelX, centerLabelY));

      // Position the centre label (the source's null check; it is non-null here).
      if centerView != null {
        centerView.x := centerLabelX;
        centerView.y := centerLabelY;
      }

      assert Distinct(ringLabels) && centerView !in ringLabels;
      for i := 0 to |ringLabels|
        invariant (centerView.x, centerView.y) == CenterLabelTarget(ccv, centerView)
        invariant centerView.visibility == old(centerView.visibility)
        invariant forall j :: 0 <= j < i && ringLabels[j] != null ==>
          ringLabels[j].visibility == SegmentVisibility(ccv.segments[j].value)
        invariant forall j :: 0 <= j < i && ringLabels[j] != null ==>
          (ringLabels[j].x, ringLabels[j].y) ==
            RingLabelTarget(g, ccv, maxX, cos, sin, centerView, ringLabels[j], j)
      {
        var ringLabel := ringLabels[i];
        if ringLabel == null {
          continue;
        }
        assert ringLabel != centerView;
        assert forall j :: 0 <= j < i && ringLabels[j] != null ==> ringLabels[j] != ringLabel;
        LayOutRingLabel(ringLabel, ccv, i, maxX, cos, sin, centerView, g,
                        ccvCenterX, ccvCenterY, labelRadius, centerLabelX, centerLabelY);
      }
    }
  }
}

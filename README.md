# CompositeCircleViewLabeler, modelled in Dafny

`CompositeCircleViewLabeler` is the Android layout in PermissionController
that surrounds a `CompositeCircleView` (a ring of coloured segments) with
text labels. It has one centre label, placed on the circle's centre, and one
ring label per segment, placed on a larger circle at the segment's centre
angle. This project models its two pieces of logic:

- **`configure`** rewrites the layout's child list. It removes every text-view
  child in place with an index-decrementing loop. It then appends the centre
  label and each non-null ring label, and stores the circle id, the labels and
  the radius scalar.
- **`onLayout`** is the placement pass. It computes the circle's centre and
  radius, and puts the centre label on the centre. For each ring label it then
  sets the visibility from the segment's value, computes a candidate point from
  the angle, and shifts the label to its anchor corner. It clamps the label
  horizontally to the window, moves it vertically off the centre label when the
  two boxes overlap (`isOverlapping`, `shouldMoveLabelUp`), and truncates the
  result to `int`.

Files:

- `java_int.dfy` (module `JavaInt`): Java's `(int)` cast of a floating-point
  value (round toward zero, saturate at the `int` bounds) and 32-bit `int`
  addition (wraps around).
- `geometry.dfy` (module `Geometry`): each placement step as a function with
  its contract. `isOverlapping` and `shouldMoveLabelUp` are here too, along with
  lemmas about the whole placement of a ring label.
- `views.dfy` (module `Views`): the text views the labeler writes to (a class
  with mutable position and visibility), the child list as a `seq<Child>`, and
  the specification of `configure`'s rewrite with its lemmas.
- `labeler.dfy` (module `Labeler`): the `CompositeCircleViewLabeler` class. Its
  `Configure` and `OnLayout` methods work step by step as the Java does. Each is
  proved against the specification functions of the other modules.

Coordinates are `real`. The window's right edge, the cosine and sine
functions, and the circle view found by id are parameters of `OnLayout`.

## Model

| member | source | states |
|---|---|---|
| JavaInt.ToInt | PermissionController/src/com/android/permissioncontroller/permission/ui/handheld/v31/CompositeCircleViewLabeler.java:103-104 | The `(int)` cast: an in-range value is truncated toward zero (within 1 of the input, on the side of 0). Values beyond the range saturate at `INT_MIN`/`INT_MAX`. The sign is preserved. |
| JavaInt.ToIntWhole | PermissionController/src/com/android/permissioncontroller/permission/ui/handheld/v31/CompositeCircleViewLabeler.java:167-168 | Casting a whole number that fits in an `int` returns it unchanged. |
| JavaInt.ToIntMonotone | PermissionController/src/com/android/permissioncontroller/permission/ui/handheld/v31/CompositeCircleViewLabeler.java:167-168 | The cast preserves order: `a <= b` implies `(int) a <= (int) b`. |
| JavaInt.AddInt | PermissionController/src/com/android/permissioncontroller/permission/ui/handheld/v31/CompositeCircleViewLabeler.java:154-156 | `int` addition: congruent to the true sum modulo 2^32, and equal to it when the sum fits. |
| Geometry.CircleCenter | PermissionController/src/com/android/permissioncontroller/permission/ui/handheld/v31/CompositeCircleViewLabeler.java:97-100 | The circle's centre is equidistant from the view's left and right edges, and from its top and bottom edges. |
| Geometry.CircleRadius | PermissionController/src/com/android/permissioncontroller/permission/ui/handheld/v31/CompositeCircleViewLabeler.java:101 | The radius is half the smaller side: twice it fits in both width and height and equals one of them. |
| Geometry.ToRadians | PermissionController/src/com/android/permissioncontroller/permission/ui/handheld/v31/CompositeCircleViewLabeler.java:124 | `Math.toRadians` as multiplication by its constant factor. It keeps the sign, and 90, 180 and 270 degrees land at or just past the quadrant bounds pi/2, pi and 3pi/2. |
| Geometry.CenterLabelOrigin | PermissionController/src/com/android/permissioncontroller/permission/ui/handheld/v31/CompositeCircleViewLabeler.java:103-104 | When the cast does not saturate, the centre label's own centre is within one pixel of the circle's centre on each axis. |
| Geometry.CenterLabelBox | PermissionController/src/com/android/permissioncontroller/permission/ui/handheld/v31/CompositeCircleViewLabeler.java:153-156 | The centre label's box as the loop sees it. When neither `int` addition overflows, it is exactly the box of the label's size at its origin. |
| Geometry.IsOverlapping | PermissionController/src/com/android/permissioncontroller/permission/ui/handheld/v31/CompositeCircleViewLabeler.java:177-184 | True iff the boxes' closed X intervals and closed Y intervals both intersect, so boxes that only touch overlap. |
| Geometry.OverlapMeansCommonPoint | PermissionController/src/com/android/permissioncontroller/permission/ui/handheld/v31/CompositeCircleViewLabeler.java:177-184 | For well-formed boxes, the test holds iff some point lies in both boxes (both directions). |
| Geometry.ShouldMoveLabelUp | PermissionController/src/com/android/permissioncontroller/permission/ui/handheld/v31/CompositeCircleViewLabeler.java:191-195 | True iff the label's vertical midpoint is strictly below the centre label's, i.e. the +Y move is strictly the shorter one. A tie takes the -Y move. |
| Geometry.CandidatePoint | PermissionController/src/com/android/permissioncontroller/permission/ui/handheld/v31/CompositeCircleViewLabeler.java:125-126 | When (cos, sin) lies on the unit circle, the candidate point is at distance `labelRadius` from the circle's centre. For a positive radius, the point is right of the centre iff the cosine is positive, and above it (smaller screen Y) iff the sine is positive. |
| Geometry.CandidatePointExample | PermissionController/src/com/android/permissioncontroller/permission/ui/handheld/v31/CompositeCircleViewLabeler.java:125-126 | Centre (50, 50), label radius 150: cosine 1 and sine 0 give (200, 50); cosine 0 and sine 1 give (50, -100). |
| Geometry.Anchor | PermissionController/src/com/android/permissioncontroller/permission/ui/handheld/v31/CompositeCircleViewLabeler.java:128-136 | The quadrant's anchor corner of the shifted box lies on the candidate point. X drops by the width iff pi/2 <= angle < 3pi/2. Y drops by the height iff angle < pi. From 3pi/2 on nothing moves. |
| Geometry.CardinalAnchors | PermissionController/src/com/android/permissioncontroller/permission/ui/handheld/v31/CompositeCircleViewLabeler.java:124-136 | A segment at 0 degrees gets the angle 2pi and no anchor shift, so in the worked example its label sits at (200, 50). A label at 90 degrees is anchored at its top-left corner, at 180 degrees at its top-right, and at 270 degrees (the top; angles run clockwise from 3 o'clock) at its bottom-right. With exact arithmetic 90, 180 and 270 degrees land strictly past the quadrant bounds 3pi/2, pi and pi/2. |
| Geometry.ClampX | PermissionController/src/com/android/permissioncontroller/permission/ui/handheld/v31/CompositeCircleViewLabeler.java:141-147 | Three cases: left of 0 gives 0; otherwise an overflowing right edge is put on `maxX`; otherwise X is unchanged. A label with `0 <= width <= maxX` ends within `[0, maxX - width]`. |
| Geometry.ClampXIdempotent | PermissionController/src/com/android/permissioncontroller/permission/ui/handheld/v31/CompositeCircleViewLabeler.java:141-147 | For a label that fits the window, clamping twice is the same as clamping once. |
| Geometry.ResolveOverlap | PermissionController/src/com/android/permissioncontroller/permission/ui/handheld/v31/CompositeCircleViewLabeler.java:149-165 | With no overlap Y is unchanged. On the "up" branch the top edge lands on the centre label's bottom edge; otherwise the bottom edge lands on its top edge. After the move the label clears the centre label vertically, and no other clearing Y is closer to the original. |
| Geometry.ClampedAnchor | PermissionController/src/com/android/permissioncontroller/permission/ui/handheld/v31/CompositeCircleViewLabeler.java:124-147 | Candidate point, then anchor, then clamp. The clamp moves only X, so Y is the anchored Y. A label whose width fits the window lies within `[0, maxX]`. |
| Geometry.RingLabelPlacement | PermissionController/src/com/android/permissioncontroller/permission/ui/handheld/v31/CompositeCircleViewLabeler.java:124-168 | The final position is the cast of the clamped anchor's X and of the overlap-corrected Y. The overlap step never moves X, and without an overlap the final Y is the cast of the anchored Y. |
| Geometry.RingLabelWithinWindow | PermissionController/src/com/android/permissioncontroller/permission/ui/handheld/v31/CompositeCircleViewLabeler.java:141-147 | A ring label whose width fits the window ends, after the `int` cast, with `0 <= x` and `x + width <= maxX`, whatever its angle. |
| Geometry.RingLabelTouchesCenterLabel | PermissionController/src/com/android/permissioncontroller/permission/ui/handheld/v31/CompositeCircleViewLabeler.java:158-168 | With exact arithmetic, a label that overlapped the centre label ends exactly touching it even after the cast: its Y is the centre label's bottom edge on the "up" branch. Otherwise its bottom edge is the centre label's top edge (when that Y fits in an `int`). |
| Views.WithoutText | PermissionController/src/com/android/permissioncontroller/permission/ui/handheld/v31/CompositeCircleViewLabeler.java:71-76 | The result holds only children of the input that are not text views, and every non-text child of the input is in it. |
| Views.LabelChildren | PermissionController/src/com/android/permissioncontroller/permission/ui/handheld/v31/CompositeCircleViewLabeler.java:83-87 | Every child added is a text view taken from the labels, and every non-null label gets a child. |
| Views.CenterChild | PermissionController/src/com/android/permissioncontroller/permission/ui/handheld/v31/CompositeCircleViewLabeler.java:79-81 | One child for a non-null centre label, none for a null one. |
| Views.ConfiguredChildren | PermissionController/src/com/android/permissioncontroller/permission/ui/handheld/v31/CompositeCircleViewLabeler.java:70-87 | The list `configure` leaves. It begins with the kept non-text children, the centre label comes right after them when it is non-null, and every child after the kept ones is a text view. |
| Views.WithoutTextStep | PermissionController/src/com/android/permissioncontroller/permission/ui/handheld/v31/CompositeCircleViewLabeler.java:71-76 | One turn of the removal loop: whether it removes a text view at index i (and steps back) or steps past another child, the visited prefix is still the filter of the children seen so far and the rest is still the unvisited originals. |
| Views.WithoutTextAppend | PermissionController/src/com/android/permissioncontroller/permission/ui/handheld/v31/CompositeCircleViewLabeler.java:71-76 | Removing text views distributes over concatenation. |
| Views.WithoutTextIdempotent | PermissionController/src/com/android/permissioncontroller/permission/ui/handheld/v31/CompositeCircleViewLabeler.java:71-76 | Removing the text views twice is the same as removing them once. |
| Views.LabelChildrenHas | PermissionController/src/com/android/permissioncontroller/permission/ui/handheld/v31/CompositeCircleViewLabeler.java:83-87 | A text view is attached for the ring labels iff it is one of them. |
| Views.AttachedAreText | PermissionController/src/com/android/permissioncontroller/permission/ui/handheld/v31/CompositeCircleViewLabeler.java:79-87 | Everything `configure` appends is a text view. |
| Views.ConfiguredKeepsOthers | PermissionController/src/com/android/permissioncontroller/permission/ui/handheld/v31/CompositeCircleViewLabeler.java:70-87 | After `configure`, the non-text children are exactly the old ones, in their old order. |
| Views.ConfiguredTextViews | PermissionController/src/com/android/permissioncontroller/permission/ui/handheld/v31/CompositeCircleViewLabeler.java:70-87 | After `configure`, a text view is a child iff it is the new centre label or one of the new ring labels, so no earlier text view remains. |
| Views.ReconfigureReplaces | PermissionController/src/com/android/permissioncontroller/permission/ui/handheld/v31/CompositeCircleViewLabeler.java:68-89 | Calling `configure` twice has the same effect on the children as calling it once with the second call's labels. |
| Labeler.SegmentVisibility | PermissionController/src/com/android/permissioncontroller/permission/ui/handheld/v31/CompositeCircleViewLabeler.java:118 | A ring label is `VISIBLE` iff its segment's value is positive, and `GONE` otherwise (never `INVISIBLE`). |
| Labeler.CenterLabelTarget | PermissionController/src/com/android/permissioncontroller/permission/ui/handheld/v31/CompositeCircleViewLabeler.java:96-104 | The centre label's position, in terms of the circle view's own coordinates: each coordinate is the circle's centre minus half the label's size, truncated toward zero (within one pixel, on the side of 0) when it fits in an `int`. |
| Labeler.LayoutGeometry | PermissionController/src/com/android/permissioncontroller/permission/ui/handheld/v31/CompositeCircleViewLabeler.java:96-104 | What the pass computes before its loop: the circle's centre, the label radius `CircleRadius(w, h) * scalar` (line 102, never negative for a non-negative size and scalar) and the centre label's position. |
| Labeler.RingLabelTarget | PermissionController/src/com/android/permissioncontroller/permission/ui/handheld/v31/CompositeCircleViewLabeler.java:113-168 | The placement a pass gives the ring label of segment i: `RingLabelPlacement` at the angle `toRadians(360 - centerAngle)` (line 124), using that label's measured size and the pass's geometry. |
| Labeler.RingLabelTargetWithinWindow | PermissionController/src/com/android/permissioncontroller/permission/ui/handheld/v31/CompositeCircleViewLabeler.java:141-147 | Whatever its segment's angle, a ring label whose measured width fits the window is placed within `[0, maxX]`. |
| Labeler.PlaceRingLabel | PermissionController/src/com/android/permissioncontroller/permission/ui/handheld/v31/CompositeCircleViewLabeler.java:124-168 | The step-by-step computation (candidate point, anchor, clamp, overlap move, cast) gives exactly the composed placement, so the `Geometry` lemmas hold of its result. |
| Labeler.LayOutRingLabel | PermissionController/src/com/android/permissioncontroller/permission/ui/handheld/v31/CompositeCircleViewLabeler.java:114-168 | One turn of the layout loop: the label gets its segment's visibility and its target position, and no other object changes. |
| Labeler.CompositeCircleViewLabeler.RemoveTextChildren | PermissionController/src/com/android/permissioncontroller/permission/ui/handheld/v31/CompositeCircleViewLabeler.java:71-76 | The in-place removal loop, with its index step-back, leaves exactly the non-text children in order (`WithoutText` of the old list). |
| Labeler.CompositeCircleViewLabeler.AttachLabels | PermissionController/src/com/android/permissioncontroller/permission/ui/handheld/v31/CompositeCircleViewLabeler.java:83-87 | The appending loop adds a child for each non-null label, in index order, after the existing children. |
| Labeler.CompositeCircleViewLabeler.Configure | PermissionController/src/com/android/permissioncontroller/permission/ui/handheld/v31/CompositeCircleViewLabeler.java:68-89 | The new children are the old non-text children, then the centre label if non-null, then the non-null ring labels. All four fields are stored, and the at-most-once invariant on labels holds. |
| Labeler.CompositeCircleViewLabeler.OnLayout | PermissionController/src/com/android/permissioncontroller/permission/ui/handheld/v31/CompositeCircleViewLabeler.java:92-170 | The centre label is put at its target and keeps its visibility. Every non-null ring label, shown or hidden, gets its segment's visibility and the placement `RingLabelTarget`. Null entries are skipped, and nothing outside the labels is written. |

## Left out

- The view-tree calls (`findViewById`, `getChildCount`, `getChildAt`, `removeViewAt`, `addView`) are modelled through the `children` sequence. The circle view found by id is the `CircleView` parameter of `OnLayout`.
- `addView` throws when a view already has a parent. That case is not modelled as an error path. Instead `Configure` requires that no label is given twice and that the centre label is not also a ring label.
- `WindowManager` / `WindowMetrics` (lines 137-139): the window's right edge `maxX` is a parameter.
- `Math.cos` and `Math.sin` are function parameters and are not specified. `CandidatePoint` only assumes `cos^2 + sin^2 = 1` as a hypothesis of its contract.
- Floating-point rounding: coordinates are exact reals, and `Math.toRadians` is multiplication by its constant factor. NaN and infinities are not modelled, so the `(int)` cast covers finite values only.
- `label.measure(0, 0)` (line 119) is not modelled. Its result is the text view's fixed `measuredWidth` and `measuredHeight`.
- The four constructors (lines 40-56) only forward to the superclass and are not modelled. The class's Dafny constructor takes the initial children (those inflated from a layout resource).
- `super.onLayout` (line 93) is not modelled. It positions the children by their layout rules, and the labeler then overrides the positions of its labels.
- Labeler.CompositeCircleViewLabeler.OnLayout: requires a non-null centre label. Line 103 dereferences `mCenterLabel` before the null check at line 107, so the Java crashes without one. That check is kept in the model, and it always succeeds. It also requires that every non-null ring label's index is below the number of segments. With a label array longer than the segment list, line 118 reads a segment value out of range and the pass fails part-way; that failure, and the labels already written before it, are not modelled.
- Labeler.CompositeCircleViewLabeler.Configure: takes the ring labels as a sequence, so it cannot be given a null array. In Java, `configure` with a null `labels` throws a NullPointerException at line 83, after the text children have been removed and the centre label added. That error path, and the half-updated state it leaves, are not modelled.
- `mLabels` is a Java array shared with the caller. The model keeps a `seq` copy, so later writes by the caller into that array are not seen.
- Angles are not reduced modulo 2pi. A segment centred at 0 degrees gets the angle 2pi, which falls in the last branch (no anchor shift), as the Java does. A segment centred at 360 degrees gets 0 and the first branch.
- The centre label's right and bottom edges (lines 154 and 156) are `int` sums that could wrap near `INT_MAX`; `CenterLabelBox` models the wrap rather than excluding it.
- No collision handling between ring labels, and no re-clamp after the vertical move: the Java does neither.

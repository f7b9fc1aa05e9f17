/**
 * The part of the view tree the labeler touches: text views, whose position
 * and visibility it writes, and its own list of children, which `configure`
 * rewrites.
 */
module Views {
  import opened JavaInt

  datatype Visibility = Visible | Invisible | Gone

  /**
   * A text view. Its laid-out size and the size it reports after being
   * measured are inputs to the labeler; its position and visibility are what
   * the labeler sets.
   */
  class TextView {
    const width: Int32
    const height: Int32
    const measuredWidth: Int32
    const measuredHeight: Int32
    var x: Int32
    var y: Int32
    var visibility: Visibility

    constructor (width: Int32, height: Int32, measuredWidth: Int32, measuredHeight: Int32)
      ensures this.width == width && this.height == height
      ensures this.measuredWidth == measuredWidth && this.measuredHeight == measuredHeight
      ensures x == 0 && y == 0 && visibility == Visible
    {
      this.width, this.height := width, height;
      this.measuredWidth, this.measuredHeight := measuredWidth, measuredHeight;
      x, y, visibility := 0, 0, Visible;
    }
  }

  /** A child of the labeler's layout: a text view, or any other view (such as the circle). */
  datatype Child = TextChild(view: TextView) | OtherChild(id: int)

  /** The children that are not text views, in their original order. */
  function WithoutText(children: seq<Child>): (r: seq<Child>)
    ensures forall i :: 0 <= i < |r| ==> r[i] in children && !r[i].TextChild?
    ensures forall i :: 0 <= i < |children| && !children[i].TextChild? ==> children[i] in r
    ensures |r| <= |children|
  {
    if children == [] then []
    else
      var last := children[|children| - 1];
      WithoutText(children[..|children| - 1]) + if last.TextChild? then [] else [last]
  }

  /** The children added for the non-null ring labels, in index order. */
  function LabelChildren(labels: seq<TextView?>): (r: seq<Child>)
    ensures forall i :: 0 <= i < |r| ==> r[i].TextChild? && r[i].view in labels
    ensures forall i :: 0 <= i < |labels| && labels[i] != null ==> TextChild(labels[i]) in r
    ensures |r| <= |labels|
  {
    if labels == [] then []
    else
      var last := labels[|labels| - 1];
      LabelChildren(labels[..|labels| - 1]) + if last == null then [] else [TextChild(last)]
  }

  /** The child for the centre label, if there is one. */
  function CenterChild(centerLabel: TextView?): (r: seq<Child>)
    ensures |r| == if centerLabel == null then 0 else 1
  {
    if centerLabel == null then [] else [TextChild(centerLabel)]
  }

  /**
   * The children after `configure`: the old children that are not text views,
   * then the centre label, then the non-null ring labels.
   */
  function ConfiguredChildren(children: seq<Child>, centerLabel: TextView?, labels: seq<TextView?>)
    : (r: seq<Child>)
    ensures |WithoutText(children)| + |CenterChild(centerLabel)| <= |r|
    ensures r[..|WithoutText(children)|] == WithoutText(children)
    ensures forall i :: |WithoutText(children)| <= i < |r| ==> r[i].TextChild?
    ensures centerLabel != null ==> r[|WithoutText(children)|] == TextChild(centerLabel)
  {
    WithoutText(children) + CenterChild(centerLabel) + LabelChildren(labels)
  }

  /** Filtering one more child: it is kept exactly when it is not a text view. */
  lemma WithoutTextSnoc(s: seq<Child>, c: Child)
    ensures WithoutText(s + [c]) == WithoutText(s) + if c.TextChild? then [] else [c]
  {
    assert (s + [c])[..|s|] == s;
  }

  /** Adding one more ring label: a child is added for it exactly when it is non-null. */
  lemma LabelChildrenSnoc(labels: seq<TextView?>, v: TextView?)
    ensures LabelChildren(labels + [v]) == LabelChildren(labels) + if v == null then [] else [TextChild(v)]
  {
    assert (labels + [v])[..|labels|] == labels;
  }

  /**
   * One turn of the in-place removal loop. The list is cur, whose first i
   * children are what is kept of orig[..k] and whose rest is orig[k..]
   * unvisited. Removing cur[i] when it is a text view, or stepping past it
   * otherwise, keeps that shape with one more original child visited.
   */
  lemma WithoutTextStep(cur: seq<Child>, orig: seq<Child>, i: nat, k: nat)
    requires i < |cur| && k <= |orig|
    requires cur[..i] == WithoutText(orig[..k]) && cur[i..] == orig[k..]
    ensures k < |orig| && cur[i] == orig[k]
    ensures var next := cur[..i] + cur[i + 1..];
      cur[i].TextChild? ==> next[..i] == WithoutText(orig[..k + 1]) && next[i..] == orig[k + 1..]
    ensures !cur[i].TextChild? ==> cur[..i + 1] == WithoutText(orig[..k + 1]) && cur[i + 1..] == orig[k + 1..]
  {
    assert cur[i..][0] == cur[i] && orig[k..][0] == orig[k];
    assert cur[i + 1..] == cur[i..][1..] && orig[k + 1..] == orig[k..][1..];
    assert orig[..k + 1] == orig[..k] + [orig[k]];
    WithoutTextSnoc(orig[..k], orig[k]);
    var next := cur[..i] + cur[i + 1..];
    assert next[..i] == cur[..i] && next[i..] == cur[i + 1..];
    assert cur[..i + 1] == cur[..i] + [cur[i]];
  }

  lemma {:induction false} WithoutTextAppend(a: seq<Child>, b: seq<Child>)
    ensures WithoutText(a + b) == WithoutText(a) + WithoutText(b)
  {
    if b == [] {
      assert a + b == a;
    } else {
      var b' := b[..|b| - 1];
      assert (a + b)[..|a + b| - 1] == a + b';
      WithoutTextAppend(a, b');
    }
  }

  /** Filtering a list that holds no text view leaves it unchanged. */
  lemma {:induction false} WithoutTextNoText(s: seq<Child>)
    requires forall i :: 0 <= i < |s| ==> !s[i].TextChild?
    ensures WithoutText(s) == s
  {
    if s != [] {
      var s' := s[..|s| - 1];
      assert s == s' + [s[|s| - 1]];
      WithoutTextNoText(s');
    }
  }

  /** Filtering a list of text views only leaves nothing. */
  lemma {:induction false} WithoutTextAllText(s: seq<Child>)
    requires forall i :: 0 <= i < |s| ==> s[i].TextChild?
    ensures WithoutText(s) == []
  {
    if s != [] {
      WithoutTextAllText(s[..|s| - 1]);
    }
  }

  /** A text view is attached for the ring labels exactly when it is one of them. */
  lemma LabelChildrenHas(labels: seq<TextView?>, v: TextView)
    ensures TextChild(v) in LabelChildren(labels) <==> v in labels
  {
    var r := LabelChildren(labels);
    if TextChild(v) in r {
      var i :| 0 <= i < |r| && r[i] == TextChild(v);
      assert r[i].view in labels;
    }
    if v in labels {
      var i :| 0 <= i < |labels| && labels[i] == v;
      assert TextChild(labels[i]) in r;
    }
  }

  /** Filtering is idempotent: a filtered list has no text view left to remove. */
  lemma WithoutTextIdempotent(s: seq<Child>)
    ensures WithoutText(WithoutText(s)) == WithoutText(s)
  {
    WithoutTextNoText(WithoutText(s));
  }

  /** Everything `configure` appends is a text view, so filtering drops all of it. */
  lemma AttachedAreText(centerLabel: TextView?, labels: seq<TextView?>)
    ensures WithoutText(CenterChild(centerLabel) + LabelChildren(labels)) == []
  {
    var added := CenterChild(centerLabel) + LabelChildren(labels);
    assert forall i :: 0 <= i < |added| ==> added[i].TextChild?;
    WithoutTextAllText(added);
  }

  /**
   * What `configure` keeps: the children that are not text views are exactly
   * the old ones, in their old order.
   */
  lemma ConfiguredKeepsOthers(children: seq<Child>, centerLabel: TextView?, labels: seq<TextView?>)
    ensures WithoutText(ConfiguredChildren(children, centerLabel, labels)) == WithoutText(children)
  {
    var kept, added := WithoutText(children), CenterChild(centerLabel) + LabelChildren(labels);
    assert ConfiguredChildren(children, centerLabel, labels) == kept + added;
    WithoutTextAppend(kept, added);
    AttachedAreText(centerLabel, labels);
    WithoutTextIdempotent(children);
  }

  /**
   * What `configure` attaches: a text view is a child afterwards exactly when
   * it is the new centre label or one of the new ring labels, so no earlier
   * text view remains.
   */
  lemma ConfiguredTextViews(children: seq<Child>, centerLabel: TextView?, labels: seq<TextView?>)
    ensures forall v: TextView :: TextChild(v) in ConfiguredChildren(children, centerLabel, labels) <==>
      v == centerLabel || v in labels
  {
    var kept := WithoutText(children);
    var center, ring := CenterChild(centerLabel), LabelChildren(labels);
    assert ConfiguredChildren(children, centerLabel, labels) == kept + center + ring;
    forall v: TextView
      ensures TextChild(v) in kept + center + ring <==> v == centerLabel || v in labels
    {
      assert TextChild(v) !in kept;
      LabelChildrenHas(labels, v);
    }
  }

  /**
   * Configuring twice is configuring once with the second call's labels: no
   * text view attached by the first call survives the second.
   */
  lemma ReconfigureReplaces(children: seq<Child>,
                            firstCenter: TextView?, firstLabels: seq<TextView?>,
                            secondCenter: TextView?, secondLabels: seq<TextView?>)
    ensures ConfiguredChildren(ConfiguredChildren(children, firstCenter, firstLabels), secondCenter, secondLabels)
         == ConfiguredChildren(children, secondCenter, secondLabels)
  {
    ConfiguredKeepsOthers(children, firstCenter, firstLabels);
  }
}

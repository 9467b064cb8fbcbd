/**
 * The pie-chart surface and its explore-by-touch accessibility helper.
 * One object owns the thresholds, the palette and the two bounding
 * rectangles; the helper's callbacks are its methods, reading the same state.
 */
module Surface {
  import opened Thresholds
  import opened Geometry
  import opened Decimal

  /** AccessibilityNodeInfoCompat.ACTION_FOCUS. */
  const ACTION_FOCUS: int := 0x0000_0001
  /** AccessibilityNodeInfoCompat.ACTION_CLICK. */
  const ACTION_CLICK: int := 0x0000_0010

  /** A colour as the red, green and blue components given to Color.rgb. */
  datatype Rgb = Rgb(red: int, green: int, blue: int)

  const Low: int := 165
  const Mid: int := 210
  const High: int := 255

  /** The six colours the sectors cycle through. */
  const Palette: seq<Rgb> := [
    Rgb(High, Low, Mid), Rgb(Mid, High, Low), Rgb(Low, Mid, High),
    Rgb(High, Mid, Low), Rgb(Mid, Low, High), Rgb(Low, High, Mid)
  ]

  /** One canvas.drawArc call: the oval, start and sweep in degrees, and the paint colour. */
  datatype Arc = Arc(oval: RectF, start: int, sweep: int, color: Rgb)

  /**
   * The arcs a drawing pass paints, in sector order: sector i starts at the
   * previous threshold, sweeps its span and takes colour i modulo the palette size.
   */
  function PieArcs(a: seq<int>, colors: seq<Rgb>, oval: RectF): (arcs: seq<Arc>)
    requires 0 < |colors|
    ensures |arcs| == |a|
  {
    seq(|a|, i requires 0 <= i < |a| => Arc(oval, Prev(a, i), Span(a, i), colors[i % |colors|]))
  }

  /**
   * Arc layout: the first arc starts at 0, each arc starts where the
   * previous one ends and ends at its own threshold, and every sweep is the
   * sector's span.
   */
  lemma ArcsContiguous(a: seq<int>, colors: seq<Rgb>, oval: RectF)
    requires 0 < |colors|
    ensures var arcs := PieArcs(a, colors, oval);
      && (0 < |arcs| ==> arcs[0].start == 0)
      && (forall i :: 0 <= i < |arcs| ==> arcs[i].start + arcs[i].sweep == a[i])
      && (forall i :: 0 < i < |arcs| ==> arcs[i].start == arcs[i - 1].start + arcs[i - 1].sweep)
      && (forall i :: 0 <= i < |arcs| ==> arcs[i].sweep == Span(a, i))
  {
  }

  /**
   * With a six-colour palette, arc i is painted colour i mod 6, so arcs six
   * apart share a colour.
   */
  lemma ArcColoursCycle(a: seq<int>, colors: seq<Rgb>, oval: RectF)
    requires |colors| == 6
    ensures var arcs := PieArcs(a, colors, oval);
      forall i :: 0 <= i < |arcs| ==> arcs[i].color == colors[i % 6]
    ensures var arcs := PieArcs(a, colors, oval);
      forall i :: 0 <= i < |arcs| - 6 ==> arcs[i + 6].color == arcs[i].color
  {
  }

  /**
   * The sweeps of the first n arcs add up to the threshold the n-th arc
   * ends at; over all arcs that is the last threshold, 360 for valid thresholds.
   */
  lemma {:induction false} ArcSweepsTotal(a: seq<int>, colors: seq<Rgb>, oval: RectF, n: nat)
    requires 0 < |colors|
    requires n <= |a|
    ensures SumSweeps(PieArcs(a, colors, oval)[..n]) == Prev(a, n)
  {
    var arcs := PieArcs(a, colors, oval);
    if n > 0 {
      ArcSweepsTotal(a, colors, oval, n - 1);
      assert arcs[..n][..n - 1] == arcs[..n - 1];
    }
  }

  function SumSweeps(arcs: seq<Arc>): int
  {
    if arcs == [] then 0 else SumSweeps(arcs[..|arcs| - 1]) + arcs[|arcs| - 1].sweep
  }

  /** The list the framework passes to getVisibleVirtualViews. */
  class IdList {
    var items: seq<int>
    constructor (items: seq<int>)
      ensures this.items == items
    {
      this.items := items;
    }
  }

  /** The fields of an AccessibilityNodeInfoCompat the helper fills in. */
  class AccessibilityNode {
    var actions: set<int>
    var boundsInParent: Rect
    var contentDescription: string
    constructor ()
      ensures actions == {} && boundsInParent == Rect(0, 0, 0, 0) && contentDescription == ""
    {
      actions := {};
      boundsInParent := Rect(0, 0, 0, 0);
      contentDescription := "";
    }
  }

  /** The indices 0, 1, ..., n - 1 in order. */
  function Indices(n: nat): seq<int>
  {
    seq(n, i => i)
  }

  /**
   * The content description of sector id: the "value of area" string, the
   * id, the "is" string and the sector's span.
   */
  function ContentDescription(valueArea: string, isText: string, a: seq<int>, id: nat): string
    requires id < |a|
  {
    valueArea + IntToString(id) + isText + IntToString(Span(a, id))
  }

  /** What follows the two label strings and the id in a description reads back as the span. */
  lemma DescriptionEndsWithSpan(valueArea: string, isText: string, a: seq<int>, id: nat)
    requires id < |a|
    ensures var d := ContentDescription(valueArea, isText, a, id);
      var k := |valueArea| + |IntToString(id)| + |isText|;
      k <= |d| && IsNumeral(d[k..]) && ParseInt(d[k..]) == Span(a, id)
  {
    var d := ContentDescription(valueArea, isText, a, id);
    var k := |valueArea| + |IntToString(id)| + |isText|;
    assert d[k..] == IntToString(Span(a, id));
    IntToStringRoundTrip(Span(a, id));
  }

  /** The description the view gives its third sector. */
  lemma SampleDescription(valueArea: string, isText: string)
    ensures ContentDescription(valueArea, isText, SourceAngles, 2) == valueArea + "2" + isText + "21"
  {
    assert Digits(21) == Digits(2) + ['1'];
  }

  class PieSurface {
    /** The cumulative sector thresholds in degrees. */
    const angles: seq<int> := SourceAngles
    /** The sector colours. */
    const colors: seq<Rgb> := Palette
    /** The pie's bounds in pixels, used for hit-testing and as every node's bounds. */
    var rect: Rect
    /** The pie's bounds as drawn. */
    var rectf: RectF

    constructor ()
      ensures rect == Rect(0, 0, 0, 0) && rectf == RectF(0.0, 0.0, 0.0, 0.0)
    {
      rect := Rect(0, 0, 0, 0);
      rectf := RectF(0.0, 0.0, 0.0, 0.0);
    }

    /**
     * getVirtualViewAt: the sector under the touch position (x, y), or
     * INVALID_ID. `degrees` is the angle of the touch position seen from the
     * pie's centre, 180 / pi * atan2(y - yc, x - xc).
     */
    method GetVirtualViewAt(x: real, y: real, degrees: real) returns (id: int)
      ensures id == INVALID_ID || 0 <= id < |angles|
      ensures !Contains(rect, TruncateToInt(x), TruncateToInt(y)) ==> id == INVALID_ID
      ensures Contains(rect, TruncateToInt(x), TruncateToInt(y)) ==>
        id == SectorOf(angles, NormaliseDegrees(degrees))
      ensures Contains(rect, TruncateToInt(x), TruncateToInt(y)) && -180.0 <= degrees <= 180.0 ==>
        0 <= id < |angles| && Prev(angles, id) as real <= NormaliseDegrees(degrees) < angles[id] as real
    {
      SourceAnglesValid();
      if -180.0 <= degrees <= 180.0 {
        SectorPartition(angles, NormaliseDegrees(degrees));
      }
      if Contains(rect, TruncateToInt(x), TruncateToInt(y)) {
        var angle := degrees;
        if angle < 0.0 {
          angle := angle + 360.0;
        }
        var i := 0;
        while i < |angles|
          invariant 0 <= i <= |angles|
          invariant FirstAbove(angles, angle, i) == SectorOf(angles, NormaliseDegrees(degrees))
        {
          if angle < angles[i] as real {
            return i;
          }
          i := i + 1;
        }
      }
      return INVALID_ID;
    }

    /** getVisibleVirtualViews: appends every sector id, in order, to the list when there is one. */
    method GetVisibleVirtualViews(ids: IdList?)
      modifies ids
      ensures ids != null ==> ids.items == old(ids.items) + Indices(|angles|)
      ensures ids != null ==> |ids.items| == |old(ids.items)| + |angles|
      ensures ids != null ==> ids.items[..|old(ids.items)|] == old(ids.items)
      ensures ids != null ==> forall i :: |old(ids.items)| <= i < |ids.items| ==> ids.items[i] == i - |old(ids.items)|
    {
      if ids != null {
        ids.items := ids.items + Indices(|angles|);
      }
    }

    /** onPerformActionForVirtualView: a click is handled, whatever the id; nothing else is. */
    method PerformActionForVirtualView(id: int, action: int) returns (handled: bool)
      ensures handled <==> action == ACTION_CLICK
    {
      if action == ACTION_CLICK {
        return true;
      } else {
        return false;
      }
    }

    /**
     * onPopulateNodeForVirtualView: the node offers click and focus, its
     * bounds are the whole pie's and its description names the sector and its span.
     */
    method PopulateNodeForVirtualView(id: nat, node: AccessibilityNode, valueArea: string, isText: string)
      requires id < |angles|
      modifies node
      ensures node.actions == old(node.actions) + {ACTION_CLICK, ACTION_FOCUS}
      ensures node.boundsInParent == rect
      ensures node.contentDescription == ContentDescription(valueArea, isText, angles, id)
    {
      node.actions := node.actions + {ACTION_CLICK};
      node.actions := node.actions + {ACTION_FOCUS};
      node.boundsInParent := rect;
      node.contentDescription := valueArea + IntToString(id) + isText
        + IntToString(angles[id] - (if id == 0 then 0 else angles[id - 1]));
    }

    /** onSizeChanged: both rectangles are recomputed from the new size alone. */
    method OnSizeChanged(w: int, h: int)
      modifies this
      ensures rectf == PieBounds(w, h)
      ensures rect == Round(PieBounds(w, h))
    {
      var r := (if w <= h then w else h) as real * 0.4;
      var cx := w as real / 2.0;
      var cy := h as real / 2.0;
      rectf := RectF(cx - r, cy - r, cx + r, cy + r);
      rect := Round(rectf);
    }

    /**
     * drawThePie: when the surface is valid, one arc per sector in order,
     * each starting where the previous one ended; nothing otherwise.
     */
    method DrawThePie(surfaceValid: bool) returns (arcs: seq<Arc>)
      ensures surfaceValid ==> arcs == PieArcs(angles, colors, rectf)
      ensures !surfaceValid ==> arcs == []
    {
      arcs := [];
      if surfaceValid {
        var oldAng := 0;
        for i := 0 to |angles|
          invariant oldAng == Prev(angles, i)
          invariant arcs == PieArcs(angles, colors, rectf)[..i]
        {
          var color := colors[i % |colors|];
          var ang := angles[i];
          arcs := arcs + [Arc(rectf, oldAng, ang - oldAng, color)];
          oldAng := ang;
        }
      }
    }
  }
}

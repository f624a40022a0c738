/** The overlay drawn over an analysed image: one absolutely positioned
    rectangle per detected item, placed by percentages of its container so
    that it follows the rendered image without knowing its pixel size. */
module Overlay {
  import opened Types

  /** A rectangle in CSS percentages of the containing element. */
  datatype Rect = Rect(top: real, left: real, height: real, width: real)

  /** One overlay element: its React key (the item's index), its title
      (the item's label) and its position. */
  datatype OverlayBox = OverlayBox(key: nat, title: string, rect: Rect)

  /** The container size that the component measures on image load and on
      window resize. */
  datatype Dimensions = Dimensions(width: real, height: real)

  /** `(v / 1000) * 100`: a coordinate on the 0-1000 scale as a percentage. */
  function Percent(v: real): real {
    (v / 1000.0) * 100.0
  }

  /** The rectangle of one box: each coordinate is scaled to a percentage,
      with no clamping and no reordering. */
  function Project(b: Box2D): (r: Rect)
    ensures r.top == YMin(b) / 10.0 && r.left == XMin(b) / 10.0
    ensures r.height == (YMax(b) - YMin(b)) / 10.0
    ensures r.width == (XMax(b) - XMin(b)) / 10.0
  {
    var (ymin, xmin, ymax, xmax) := b;
    Rect(Percent(ymin), Percent(xmin), Percent(ymax - ymin), Percent(xmax - xmin))
  }

  /** The far edges of the rectangle sit at ymax and xmax. */
  lemma ProjectFarEdges(b: Box2D)
    ensures Project(b).top + Project(b).height == YMax(b) / 10.0
    ensures Project(b).left + Project(b).width == XMax(b) / 10.0
  {
  }

  /** A reversed box gives a negative extent, and only a reversed box does. */
  lemma ProjectNoReordering(b: Box2D)
    ensures Project(b).height < 0.0 <==> YMax(b) < YMin(b)
    ensures Project(b).width < 0.0 <==> XMax(b) < XMin(b)
  {
  }

  /** Coordinates outside 0-1000 are carried through, not clamped. */
  lemma ProjectNoClamping(b: Box2D)
    ensures YMin(b) < 0.0 ==> Project(b).top < 0.0
    ensures XMin(b) < 0.0 ==> Project(b).left < 0.0
    ensures YMax(b) > 1000.0 ==> Project(b).top + Project(b).height > 100.0
    ensures XMax(b) > 1000.0 ==> Project(b).left + Project(b).width > 100.0
  {
  }

  /** A well-formed box on the 0-1000 scale stays inside the image. */
  lemma ProjectWithinImage(b: Box2D)
    requires 0.0 <= YMin(b) <= YMax(b) <= 1000.0
    requires 0.0 <= XMin(b) <= XMax(b) <= 1000.0
    ensures 0.0 <= Project(b).top && 0.0 <= Project(b).height
    ensures Project(b).top + Project(b).height <= 100.0
    ensures 0.0 <= Project(b).left && 0.0 <= Project(b).width
    ensures Project(b).left + Project(b).width <= 100.0
  {
    ProjectFarEdges(b);
  }

  /** `items.map((item, index) => ...)` over `items[from..]`. */
  function OverlaysFrom(items: seq<BoundingBox>, from: nat): (boxes: seq<OverlayBox>)
    requires from <= |items|
    ensures |boxes| == |items| - from
    ensures forall j :: 0 <= j < |boxes| ==>
      boxes[j] == OverlayBox(from + j, items[from + j].labelText, Project(items[from + j].box2d))
    decreases |items| - from
  {
    if from == |items| then []
    else
      [OverlayBox(from, items[from].labelText, Project(items[from].box2d))]
      + OverlaysFrom(items, from + 1)
  }

  /** Exactly one overlay per item, in item order, keyed by position and
      titled with the item's label. */
  function Overlays(items: seq<BoundingBox>): (boxes: seq<OverlayBox>)
    ensures |boxes| == |items|
    ensures forall i :: 0 <= i < |items| ==>
      boxes[i].key == i && boxes[i].title == items[i].labelText
      && boxes[i].rect == Project(items[i].box2d)
  {
    OverlaysFrom(items, 0)
  }

  /** What the component renders. The measured dimensions are state of the
      component but play no part in the rectangles. */
  function Render(items: seq<BoundingBox>, dimensions: Dimensions): seq<OverlayBox> {
    Overlays(items)
  }

  lemma RenderIgnoresDimensions(items: seq<BoundingBox>, d1: Dimensions, d2: Dimensions)
    ensures Render(items, d1) == Render(items, d2)
  {
  }

  /** The box (100, 200, 300, 400) becomes top 10%, left 20%, height 20%,
      width 20%. */
  lemma ProjectExample()
    ensures Project((100.0, 200.0, 300.0, 400.0)) == Rect(10.0, 20.0, 20.0, 20.0)
  {
  }
}

/**
 * Vertex positions and the purely geometric queries of a shape that do not
 * depend on a distance function: translation and the axis-aligned rectangle
 * test.
 */
module Geometry {

  /** A vertex position. The editor stores floating-point points; the model uses integers. */
  datatype Point = Point(x: int, y: int)

  function Add(p: Point, q: Point): Point {
    Point(p.x + q.x, p.y + q.y)
  }

  function Sub(p: Point, q: Point): Point {
    Point(p.x - q.x, p.y - q.y)
  }

  function Neg(p: Point): Point {
    Point(-p.x, -p.y)
  }

  /** The vertex list after every vertex has been moved by `offset`. */
  function Translated(pts: seq<Point>, offset: Point): (r: seq<Point>)
    ensures |r| == |pts|
    ensures forall k :: 0 <= k < |pts| ==> r[k] == Add(pts[k], offset)
  {
    seq(|pts|, k requires 0 <= k < |pts| => Add(pts[k], offset))
  }

  /** Moving by `a` and then by `b` is moving by `a + b`. */
  lemma TranslatedComposes(pts: seq<Point>, a: Point, b: Point)
    ensures Translated(Translated(pts, a), b) == Translated(pts, Add(a, b))
  {
  }

  /** Moving back by the opposite offset restores every vertex. */
  lemma TranslatedRoundTrip(pts: seq<Point>, offset: Point)
    ensures Translated(Translated(pts, offset), Neg(offset)) == pts
  {
  }

  /**
   * The rectangle test: exactly four vertices which, in stored order, go
   * along a horizontal edge, a vertical edge, a horizontal edge and a
   * vertical edge back to the start.
   */
  predicate IsRectangle(pts: seq<Point>)
    ensures IsRectangle(pts) ==>
              |pts| == 4 && pts[1] == Point(pts[2].x, pts[0].y) && pts[3] == Point(pts[0].x, pts[2].y)
  {
    |pts| == 4
    && pts[0].y == pts[1].y
    && pts[1].x == pts[2].x
    && pts[2].y == pts[3].y
    && pts[3].x == pts[0].x
  }

  /** The four corners of an axis-aligned rectangle, starting at (x0, y0) and going horizontally first. */
  function AxisRectangle(x0: int, y0: int, x1: int, y1: int): seq<Point> {
    [Point(x0, y0), Point(x1, y0), Point(x1, y1), Point(x0, y1)]
  }

  /** The rectangle test accepts exactly the corner lists that start with a horizontal edge. */
  lemma IsRectangleIffAxisRectangle(pts: seq<Point>)
    ensures IsRectangle(pts) <==> exists x0, y0, x1, y1 :: pts == AxisRectangle(x0, y0, x1, y1)
  {
    if IsRectangle(pts) {
      var w := AxisRectangle(pts[0].x, pts[0].y, pts[2].x, pts[2].y);
      assert pts == w;
    }
  }

  /** Starting the walk at the opposite corner, or walking it backwards, keeps the test true. */
  lemma RectangleSymmetries(pts: seq<Point>)
    requires IsRectangle(pts)
    ensures IsRectangle([pts[2], pts[3], pts[0], pts[1]])
    ensures IsRectangle([pts[3], pts[2], pts[1], pts[0]])
  {
  }

  /**
   * The test is order-sensitive: the corners of one rectangle pass in
   * one order and fail in others, including the vertical-edge-first order.
   */
  lemma RectangleOrderMatters()
    ensures IsRectangle([Point(0, 0), Point(3, 0), Point(3, 2), Point(0, 2)])
    ensures !IsRectangle([Point(0, 0), Point(0, 2), Point(3, 2), Point(3, 0)])
    ensures !IsRectangle([Point(0, 0), Point(3, 2), Point(0, 2), Point(3, 0)])
    ensures !IsRectangle([Point(3, 0), Point(3, 2), Point(0, 2), Point(0, 0)])
  {
  }

  /** Translating a shape does not change whether it is a rectangle. */
  lemma RectangleTranslationInvariant(pts: seq<Point>, offset: Point)
    ensures IsRectangle(Translated(pts, offset)) <==> IsRectangle(pts)
  {
  }
}

/**
 * Plane geometry shared by the container and the arrow component: points with
 * componentwise addition and subtraction (the repository's Point class), the
 * bounding rectangle an element reports, and the anchor names a relation uses.
 */
module Geometry {

  /** A point in pixels. JavaScript numbers are modelled as exact reals. */
  datatype Point = Point(x: real, y: real)

  const Origin: Point := Point(0.0, 0.0)

  function Subtract(a: Point, b: Point): (r: Point)
    ensures r == Origin <==> a == b
  {
    Point(a.x - b.x, a.y - b.y)
  }

  /** Adding a point can be undone by subtracting either summand. */
  function Add(a: Point, b: Point): (r: Point)
    ensures Subtract(r, b) == a && Subtract(r, a) == b
  {
    Point(a.x + b.x, a.y + b.y)
  }

  /** Subtraction undoes addition, and a point minus itself is the origin. */
  lemma SubtractAdd(a: Point, b: Point)
    ensures Subtract(Add(a, b), b) == a
    ensures Subtract(a, a) == Origin
  {
  }

  /**
   * Coordinates as the container computes them: either numbers, or the point
   * JavaScript produces once its arithmetic has read a field that is
   * `undefined` (both coordinates NaN). NaN absorbs every later operation.
   */
  datatype Pos = Num(p: Point) | NaN

  function SubtractPos(a: Pos, b: Pos): (r: Pos)
    ensures r.Num? <==> a.Num? && b.Num?
  {
    match (a, b)
    case (Num(p), Num(q)) => Num(Subtract(p, q))
    case _ => NaN
  }

  /** What getBoundingClientRect reports for an element. */
  datatype Rect = Rect(left: real, top: real, width: real, height: real)

  /** The rectangle moved by the vector `t`; its size is kept. */
  function Shift(r: Rect, t: Point): Rect
  {
    Rect(r.left + t.x, r.top + t.y, r.width, r.height)
  }

  /**
   * The anchor names the source switches on; any other string (or a missing
   * value) is `Other`.
   */
  datatype Anchor = Top | Bottom | Left | Right | Other
  {
    predicate IsVertical() { this == Top || this == Bottom }
    predicate IsHorizontal() { this == Left || this == Right }
  }

  function Midpoint(a: Point, b: Point): Point
  {
    Point((a.x + b.x) / 2.0, (a.y + b.y) / 2.0)
  }

  function TopLeft(r: Rect): Point { Point(r.left, r.top) }
  function TopRight(r: Rect): Point { Point(r.left + r.width, r.top) }
  function BottomLeft(r: Rect): Point { Point(r.left, r.top + r.height) }
  function BottomRight(r: Rect): Point { Point(r.left + r.width, r.top + r.height) }

  /** `p` lies in the closed rectangle (of non-negative size). */
  predicate Inside(r: Rect, p: Point)
  {
    r.left <= p.x <= r.left + r.width && r.top <= p.y <= r.top + r.height
  }

  /** `p` lies in the rectangle and on one of its four edges. */
  predicate OnBoundary(r: Rect, p: Point)
  {
    Inside(r, p) &&
    (p.x == r.left || p.x == r.left + r.width || p.y == r.top || p.y == r.top + r.height)
  }
}

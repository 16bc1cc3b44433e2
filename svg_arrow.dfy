/**
 * The arrow component (src/SvgArrow.js): the direction in which an end is
 * trimmed, the trimmed end point, the two midpoint control points, and the
 * line the component draws.
 */
module SvgArrow {
  import opened Geometry

  /** The unit vector pointing away from the shape at an anchor. */
  datatype Direction = Direction(arrowX: real, arrowY: real)

  function Abs(r: real): real { if r < 0.0 then -r else r }

  function DirectionVector(anchor: Anchor): (v: Direction)
    ensures anchor == Other <==> v == Direction(0.0, 0.0)
    ensures anchor != Other ==> (v.arrowX == 0.0) != (v.arrowY == 0.0)
    ensures anchor != Other ==> Abs(v.arrowX) + Abs(v.arrowY) == 1.0
    ensures anchor.IsHorizontal() <==> v.arrowY == 0.0 && v.arrowX != 0.0
    ensures anchor.IsVertical() <==> v.arrowX == 0.0 && v.arrowY != 0.0
  {
    match anchor
    case Left => Direction(-1.0, 0.0)
    case Right => Direction(1.0, 0.0)
    case Top => Direction(0.0, -1.0)
    case Bottom => Direction(0.0, 1.0)
    case Other => Direction(0.0, 0.0)
  }

  /** How far `q` lies from `p` measured along `v`. */
  function Along(v: Direction, p: Point, q: Point): real
  {
    v.arrowX * (q.x - p.x) + v.arrowY * (q.y - p.y)
  }

  /**
   * The end point moved along the anchor's direction by
   * arrowLength * strokeWidth / 2.
   */
  function EndingPointAccordingToArrow(xEnd: real, yEnd: real, arrowLength: real,
                                       strokeWidth: real, endingAnchor: Anchor): (e: Point)
    ensures endingAnchor == Other ==> e == Point(xEnd, yEnd)
    ensures endingAnchor == Left ==> e == Point(xEnd - arrowLength * strokeWidth / 2.0, yEnd)
    ensures endingAnchor == Right ==> e == Point(xEnd + arrowLength * strokeWidth / 2.0, yEnd)
    ensures endingAnchor == Top ==> e == Point(xEnd, yEnd - arrowLength * strokeWidth / 2.0)
    ensures endingAnchor == Bottom ==> e == Point(xEnd, yEnd + arrowLength * strokeWidth / 2.0)
  {
    var v := DirectionVector(endingAnchor);
    Point(xEnd + v.arrowX * arrowLength * strokeWidth / 2.0,
          yEnd + v.arrowY * arrowLength * strokeWidth / 2.0)
  }

  /**
   * For a recognised anchor the trimmed point lies exactly
   * arrowLength * strokeWidth / 2 from the end point along the direction
   * vector, and not at all off it.
   */
  lemma EndingPointDisplacement(xEnd: real, yEnd: real, arrowLength: real,
                                strokeWidth: real, anchor: Anchor)
    requires anchor != Other
    ensures var v := DirectionVector(anchor);
            var e := EndingPointAccordingToArrow(xEnd, yEnd, arrowLength, strokeWidth, anchor);
            Along(v, Point(xEnd, yEnd), e) == arrowLength * strokeWidth / 2.0 &&
            Along(Direction(v.arrowY, v.arrowX), Point(xEnd, yEnd), e) == 0.0
  {
  }

  /**
   * With a recognised anchor and a positive arrow length, a wider stroke
   * pushes the end point strictly further along the direction vector.
   */
  lemma WiderStrokeTrimsFurther(xEnd: real, yEnd: real, arrowLength: real,
                                w1: real, w2: real, anchor: Anchor)
    requires anchor != Other && arrowLength > 0.0 && w1 < w2
    ensures var v := DirectionVector(anchor);
            var e1 := EndingPointAccordingToArrow(xEnd, yEnd, arrowLength, w1, anchor);
            var e2 := EndingPointAccordingToArrow(xEnd, yEnd, arrowLength, w2, anchor);
            Along(v, Point(xEnd, yEnd), e1) < Along(v, Point(xEnd, yEnd), e2)
  {
    EndingPointDisplacement(xEnd, yEnd, arrowLength, w1, anchor);
    EndingPointDisplacement(xEnd, yEnd, arrowLength, w2, anchor);
    assert arrowLength * w1 < arrowLength * w2;
  }

  /**
   * The first control point: halfway along the axis the starting anchor
   * faces, on the start's line across it; the start itself otherwise.
   */
  function StartingAnchorPosition(xs: real, ys: real, xe: real, ye: real,
                                  startingAnchor: Anchor): (a: Point)
    ensures startingAnchor.IsVertical() ==> a == Point(xs, (ys + ye) / 2.0)
    ensures startingAnchor.IsHorizontal() ==> a == Point((xs + xe) / 2.0, ys)
    ensures startingAnchor == Other ==> a == Point(xs, ys)
  {
    if startingAnchor == Top || startingAnchor == Bottom then
      Point(xs, ys + (ye - ys) / 2.0)
    else if startingAnchor == Left || startingAnchor == Right then
      Point(xs + (xe - xs) / 2.0, ys)
    else
      Point(xs, ys)
  }

  /** The second control point, the mirror image of the first on the end's side. */
  function EndingAnchorPosition(xs: real, ys: real, xe: real, ye: real,
                                endingAnchor: Anchor): (a: Point)
    ensures endingAnchor.IsVertical() ==> a == Point(xe, (ys + ye) / 2.0)
    ensures endingAnchor.IsHorizontal() ==> a == Point((xs + xe) / 2.0, ye)
    ensures endingAnchor == Other ==> a == Point(xe, ye)
  {
    if endingAnchor == Top || endingAnchor == Bottom then
      Point(xe, ye - (ye - ys) / 2.0)
    else if endingAnchor == Left || endingAnchor == Right then
      Point(xe - (xe - xs) / 2.0, ye)
    else
      Point(xe, ye)
  }

  /**
   * Two vertical anchors put both control points on the same horizontal
   * line, halfway between the ends; two horizontal anchors put them on the
   * same vertical line. Either way the control points split the segment
   * between them evenly.
   */
  lemma ControlPointsMeet(xs: real, ys: real, xe: real, ye: real, a1: Anchor, a2: Anchor)
    ensures a1.IsVertical() && a2.IsVertical() ==>
              StartingAnchorPosition(xs, ys, xe, ye, a1).y == EndingAnchorPosition(xs, ys, xe, ye, a2).y
              == Midpoint(Point(xs, ys), Point(xe, ye)).y
    ensures a1.IsHorizontal() && a2.IsHorizontal() ==>
              StartingAnchorPosition(xs, ys, xe, ye, a1).x == EndingAnchorPosition(xs, ys, xe, ye, a2).x
              == Midpoint(Point(xs, ys), Point(xe, ye)).x
  {
  }

  /** The props the container passes to one arrow. */
  datatype ArrowProps = ArrowProps(
    startingPoint: Pos,
    startingAnchor: Anchor,
    endingPoint: Pos,
    endingAnchor: Anchor,
    startArrow: bool,
    strokeColor: string,
    arrowLength: real,
    strokeWidth: real)

  /** The two-point path `M xs,ys L xe,ye`, kept as its two points. */
  datatype Line = Line(start: Pos, end: Pos)

  /**
   * The geometry the arrow component draws: the start point as given, and the
   * end point trimmed with twice the declared arrow length.
   */
  function ArrowPath(props: ArrowProps): (line: Line)
    ensures line.start == props.startingPoint
    ensures line.end.Num? <==> props.endingPoint.Num?
    ensures props.endingPoint.Num? ==>
              var v := DirectionVector(props.endingAnchor);
              var d := props.arrowLength * props.strokeWidth;
              line.end.p == Point(props.endingPoint.p.x + v.arrowX * d,
                                  props.endingPoint.p.y + v.arrowY * d)
  {
    var actualArrowLength := props.arrowLength * 2.0;
    var end :=
      match props.endingPoint
      case Num(p) =>
        Num(EndingPointAccordingToArrow(p.x, p.y, actualArrowLength, props.strokeWidth,
                                        props.endingAnchor))
      case NaN => NaN;
    Line(props.startingPoint, end)
  }

  /** The component never reads the start-arrow flag nor the stroke colour. */
  lemma ArrowPathIgnoresStartArrow(props: ArrowProps, flag: bool, color: string)
    ensures ArrowPath(props.(startArrow := flag, strokeColor := color)) == ArrowPath(props)
  {
  }

  /** A right-to-left arrow: the end is pulled back by 10 * 2 pixels. */
  lemma ArrowPathExample()
    ensures ArrowPath(ArrowProps(Num(Point(100.0, 25.0)), Right, Num(Point(200.0, 25.0)), Left,
                                 true, "#f00", 10.0, 2.0))
            == Line(Num(Point(100.0, 25.0)), Num(Point(180.0, 25.0)))
  {
  }
}

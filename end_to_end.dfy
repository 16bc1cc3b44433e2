/**
 * Properties that span the container and the arrow component, and the
 * container driven through whole registration sequences.
 */
module EndToEnd {
  import opened Geometry
  import opened SvgArrow
  import opened Archer

  /** A point moved by `t` along a direction vector. */
  function Step(p: Point, v: Direction, t: real): Point
  {
    Point(p.x + v.arrowX * t, p.y + v.arrowY * t)
  }

  /**
   * The trimming direction of a recognised anchor points out of the shape:
   * any positive step from the anchor point leaves the rectangle.
   */
  lemma DirectionPointsOutward(anchor: Anchor, rect: Rect, t: real)
    requires anchor != Other && rect.width >= 0.0 && rect.height >= 0.0 && t > 0.0
    ensures Inside(rect, AnchorPoint(anchor, rect))
    ensures !Inside(rect, Step(AnchorPoint(anchor, rect), DirectionVector(anchor), t))
  {
    AnchorOnBoundary(anchor, rect);
    var p := AnchorPoint(anchor, rect);
    var q := Step(p, DirectionVector(anchor), t);
    match anchor
    case Left => assert q.x < rect.left;
    case Right => assert q.x > rect.left + rect.width;
    case Top => assert q.y < rect.top;
    case Bottom => assert q.y > rect.top + rect.height;
  }

  /** Every relation names recognised anchors at both ends. */
  predicate KnownAnchors(fromTo: seq<Relation>)
  {
    forall i :: 0 <= i < |fromTo| ==> fromTo[i].from.anchor != Other && fromTo[i].to.anchor != Other
  }

  /**
   * An endpoint does not move when every element and the parent move by
   * the same vector.
   */
  lemma EndpointTranslationInvariant(anchor: Anchor, id: Key, refs: map<Key, Ref>, parent: Ref,
                                     rectOf: Ref -> Rect, moved: Ref -> Rect, t: Point)
    requires anchor != Other
    requires forall r :: moved(r) == Shift(rectOf(r), t)
    ensures PointCoordinatesFromAnchor(anchor, id, refs, ParentCoordinates(Some(parent), moved), moved)
            == PointCoordinatesFromAnchor(anchor, id, refs, ParentCoordinates(Some(parent), rectOf), rectOf)
  {
    if id in refs {
      RelativeEndpoint(anchor, id, refs, parent, rectOf);
      RelativeEndpoint(anchor, id, refs, parent, moved);
      RelativeEndpointTranslationInvariant(anchor, rectOf(refs[id]), rectOf(parent), t);
    }
  }

  /**
   * Scrolling the page, which moves every element together with the parent,
   * changes none of the arrows when all anchors are recognised.
   */
  lemma ArrowsTranslationInvariant(fromTo: seq<Relation>, refs: map<Key, Ref>,
                                    parent: Ref, props: Props,
                                    rectOf: Ref -> Rect, moved: Ref -> Rect, t: Point)
    requires KnownAnchors(fromTo)
    requires forall r :: moved(r) == Shift(rectOf(r), t)
    ensures Arrows(fromTo, refs, ParentCoordinates(Some(parent), moved), props, moved)
            == Arrows(fromTo, refs, ParentCoordinates(Some(parent), rectOf), props, rectOf)
  {
    var a := Arrows(fromTo, refs, ParentCoordinates(Some(parent), moved), props, moved);
    var b := Arrows(fromTo, refs, ParentCoordinates(Some(parent), rectOf), props, rectOf);
    forall i | 0 <= i < |fromTo|
      ensures a[i] == b[i]
    {
      var r := fromTo[i];
      EndpointTranslationInvariant(r.from.anchor, r.from.id, refs, parent, rectOf, moved, t);
      EndpointTranslationInvariant(r.to.anchor, r.to.id, refs, parent, rectOf, moved, t);
    }
  }

  /**
   * An element that never registered gives NaN at a recognised anchor, and
   * without a parent every endpoint is NaN: for an ordinary key the
   * computation goes through, but it does not produce the origin either.
   */
  lemma MissingElementGivesNaN(anchor: Anchor, id: Key, refs: map<Key, Ref>,
                               parent: Option<Ref>, rectOf: Ref -> Rect)
    requires id !in refs || parent.None?
    requires anchor != Other || parent.None?
    ensures PointCoordinatesFromAnchor(anchor, id, refs, ParentCoordinates(parent, rectOf), rectOf).NaN?
  {
  }

  /**
   * What registerTransition does to the computed arrow props: the existing
   * ones twice over, then the new relation's.
   */
  lemma ArrowsAfterTransition(fromTo: seq<Relation>, relation: Relation, fromElement: Key,
                              refs: map<Key, Ref>, parentCoordinates: Pos, props: Props,
                              rectOf: Ref -> Rect)
    ensures var before := Arrows(fromTo, refs, parentCoordinates, props, rectOf);
            Arrows(fromTo + fromTo + [WithSource(relation, fromElement)], refs, parentCoordinates, props, rectOf)
            == before + before
               + [ArrowFor(WithSource(relation, fromElement), refs, parentCoordinates, props, rectOf)]
  {
    ArrowsAppend(fromTo + fromTo, [WithSource(relation, fromElement)], refs, parentCoordinates, props, rectOf);
    ArrowsAppend(fromTo, fromTo, refs, parentCoordinates, props, rectOf);
  }

  /** Element rectangles of the two-box example; anything else sits at the origin with no size. */
  function ExampleRects(r: Ref): Rect
  {
    if r == Element(1) then Rect(0.0, 0.0, 100.0, 50.0)
    else if r == Element(2) then Rect(200.0, 0.0, 100.0, 50.0)
    else Rect(0.0, 0.0, 0.0, 0.0)
  }

  /** The relation from A's right edge to B's left edge, as registered from A. */
  function ExampleRelation(startArrow: bool): Relation
  {
    WithSource(Relation(Source("", Right, Some(startArrow)), Target("B", Left)), "A")
  }

  /** Where the two-box example's anchors land, relative to a parent at the origin. */
  lemma ExampleStart(refs: map<Key, Ref>)
    requires "A" in refs && refs["A"] == Element(1)
    ensures PointCoordinatesFromAnchor(Right, "A", refs, ParentCoordinates(Some(Element(0)), ExampleRects),
                                       ExampleRects) == Num(Point(100.0, 25.0))
  {
    var origin := ParentCoordinates(Some(Element(0)), ExampleRects);
    assert origin == Num(Origin) by {
      assert ExampleRects(Element(0)) == Rect(0.0, 0.0, 0.0, 0.0);
    }
    var rect := ExampleRects(refs["A"]);
    assert rect == Rect(0.0, 0.0, 100.0, 50.0);
    assert AnchorPoint(Right, rect) == Point(100.0, 25.0);
    assert Subtract(Point(100.0, 25.0), Origin) == Point(100.0, 25.0);
  }

  lemma ExampleEnd(refs: map<Key, Ref>)
    requires "B" in refs && refs["B"] == Element(2)
    ensures PointCoordinatesFromAnchor(Left, "B", refs, ParentCoordinates(Some(Element(0)), ExampleRects),
                                       ExampleRects) == Num(Point(200.0, 25.0))
  {
    var origin := ParentCoordinates(Some(Element(0)), ExampleRects);
    assert origin == Num(Origin) by {
      assert ExampleRects(Element(0)) == Rect(0.0, 0.0, 0.0, 0.0);
    }
    var rect := ExampleRects(refs["B"]);
    assert rect == Rect(200.0, 0.0, 100.0, 50.0);
    assert AnchorPoint(Left, rect) == Point(200.0, 25.0);
    assert Subtract(Point(200.0, 25.0), Origin) == Point(200.0, 25.0);
  }

  /** The props of the arrow the two-box example computes, given where its endpoints land. */
  lemma ExampleArrowProps(startArrow: bool, refs: map<Key, Ref>, origin: Pos)
    requires PointCoordinatesFromAnchor(Right, "A", refs, origin, ExampleRects) == Num(Point(100.0, 25.0))
    requires PointCoordinatesFromAnchor(Left, "B", refs, origin, ExampleRects) == Num(Point(200.0, 25.0))
    ensures ArrowFor(ExampleRelation(startArrow), refs, origin, DefaultProps(), ExampleRects)
            == ArrowProps(Num(Point(100.0, 25.0)), Right, Num(Point(200.0, 25.0)), Left,
                          startArrow, "#f00", 10.0, 2.0)
  {
    assert ExampleRelation(startArrow) == Relation(Source("A", Right, Some(startArrow)), Target("B", Left));
  }

  /** The line the two-box example computes, with or without a start arrow. */
  lemma ExampleLine(startArrow: bool)
    ensures ArrowPath(ArrowProps(Num(Point(100.0, 25.0)), Right, Num(Point(200.0, 25.0)), Left,
                                 startArrow, "#f00", 10.0, 2.0))
            == Line(Num(Point(100.0, 25.0)), Num(Point(180.0, 25.0)))
  {
    var props := ArrowProps(Num(Point(100.0, 25.0)), Right, Num(Point(200.0, 25.0)), Left,
                            true, "#f00", 10.0, 2.0);
    ArrowPathExample();
    ArrowPathIgnoresStartArrow(props, startArrow, "#f00");
  }

  /** The props of the two-box example's arrow once both boxes are registered and the parent sits at the origin. */
  lemma ExampleArrow(startArrow: bool, refs: map<Key, Ref>)
    requires "A" in refs && refs["A"] == Element(1)
    requires "B" in refs && refs["B"] == Element(2)
    ensures ArrowFor(ExampleRelation(startArrow), refs, ParentCoordinates(Some(Element(0)), ExampleRects),
                     DefaultProps(), ExampleRects)
            == ArrowProps(Num(Point(100.0, 25.0)), Right, Num(Point(200.0, 25.0)), Left,
                          startArrow, "#f00", 10.0, 2.0)
  {
    var origin := ParentCoordinates(Some(Element(0)), ExampleRects);
    assert PointCoordinatesFromAnchor(Right, "A", refs, origin, ExampleRects) == Num(Point(100.0, 25.0)) by {
      ExampleStart(refs);
    }
    assert PointCoordinatesFromAnchor(Left, "B", refs, origin, ExampleRects) == Num(Point(200.0, 25.0)) by {
      ExampleEnd(refs);
    }
    ExampleArrowProps(startArrow, refs, origin);
  }

  /**
   * The two-box state: default props, the boxes registered under "A" and
   * "B", the parent stored, and the one relation from A's right edge to
   * B's left edge.
   */
  ghost predicate TwoBoxState(container: ArcherContainer, startArrow: bool)
    reads container
  {
    && container.props == DefaultProps()
    && container.refs == map["A" := Element(1), "B" := Element(2)]
    && container.parent == Some(Element(0))
    && container.fromTo == [ExampleRelation(startArrow)]
  }

  /**
   * Registers box A, the parent, then box B twice with a different element
   * the second time (after a resize has refreshed the screen), and the
   * relation from A's right edge to B's left edge: the first element given
   * for a key is the one kept.
   */
  method RegisterTwoBoxes(container: ArcherContainer, startArrow: bool)
    requires container.Valid() && container.props == DefaultProps()
    requires container.refs == map[] && container.parent == None && container.fromTo == []
    modifies container
    ensures container.Valid()
    ensures TwoBoxState(container, startArrow)
  {
    container.RegisterChild("A", Element(1));
    container.StoreParent(Element(0));
    container.RefreshScreen();
    container.RegisterChild("B", Element(2));
    container.RegisterChild("B", Element(3));
    container.RegisterTransition("A", Relation(Source("", Right, Some(startArrow)), Target("B", Left)));
  }

  /** The props of the one arrow a container in the two-box state computes. */
  lemma ExampleContainerArrow(container: ArcherContainer, startArrow: bool)
    requires TwoBoxState(container, startArrow)
    ensures container.ComputeArrows(ExampleRects)
            == [ArrowProps(Num(Point(100.0, 25.0)), Right, Num(Point(200.0, 25.0)), Left,
                           startArrow, "#f00", 10.0, 2.0)]
  {
    ExampleArrow(startArrow, container.refs);
  }

  /** The line of the one arrow a container in the two-box state computes. */
  method FirstLine(container: ArcherContainer, startArrow: bool) returns (line: Line)
    requires TwoBoxState(container, startArrow)
    ensures line == Line(Num(Point(100.0, 25.0)), Num(Point(180.0, 25.0)))
  {
    var arrows := container.ComputeArrows(ExampleRects);
    ExampleContainerArrow(container, startArrow);
    ExampleLine(startArrow);
    line := ArrowPath(arrows[0]);
  }

  /**
   * Two boxes side by side, a relation from A's right edge to B's left edge,
   * default props, with or without a start arrow: the line runs from
   * (100, 25) to (180, 25), and the start is never trimmed. Registering a
   * second relation then leaves three relations, the first one listed twice.
   */
  method TwoBoxes(startArrow: bool) returns (line: Line, count: nat)
    ensures line == Line(Num(Point(100.0, 25.0)), Num(Point(180.0, 25.0)))
    ensures count == 3
  {
    var container := new ArcherContainer(DefaultProps());
    RegisterTwoBoxes(container, startArrow);
    line := FirstLine(container, startArrow);
    container.RegisterTransition("B", Relation(Source("", Bottom, None), Target("A", Top)));
    count := |container.ComputeArrows(ExampleRects)|;
  }

  /** Refreshing changes no state, so the arrows computed before and after agree. */
  method Refresh(container: ArcherContainer, rectOf: Ref -> Rect) returns (before: seq<ArrowProps>,
                                                                           after: seq<ArrowProps>)
    modifies container
    ensures before == after
  {
    before := container.ComputeArrows(rectOf);
    container.RefreshScreen();
    after := container.ComputeArrows(rectOf);
  }
}

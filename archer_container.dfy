/**
 * The container (src/ArcherContainer.js): resolving an anchor of an element's
 * rectangle to a point, expressing it relative to the parent's top-left
 * corner, the registry of elements and relations the container keeps in its
 * state, and the props it computes for every arrow.
 */
module Archer {
  import opened Geometry
  import opened SvgArrow

  datatype Option<T> = None | Some(value: T)

  /**
   * The identifier an element registers under. The state keeps elements in
   * a plain JavaScript object; keys that name properties every object
   * inherits (such as "constructor" or "toString") behave differently there
   * and are outside this model: a key here is an ordinary map key.
   */
  type Key = string

  /** The identity of a mounted DOM element. */
  datatype Ref = Element(node: nat)

  /** The starting end of a relation; `startArrow` may be absent. */
  datatype Source = Source(id: Key, anchor: Anchor, startArrow: Option<bool>)

  /** The finishing end of a relation. */
  datatype Target = Target(id: Key, anchor: Anchor)

  datatype Relation = Relation(from: Source, to: Target)

  /** The container's props that reach the arrows. */
  datatype Props = Props(arrowLength: real, arrowThickness: real, strokeColor: string,
                         strokeWidth: real)

  /** The props a container gets when its user sets none. */
  function DefaultProps(): (p: Props)
    ensures p.arrowLength == 10.0 && p.arrowThickness == 6.0
    ensures p.strokeColor == "#f00" && p.strokeWidth == 2.0
  {
    Props(10.0, 6.0, "#f00", 2.0)
  }

  /** The top-left corner of a rectangle. */
  function RectToPoint(rect: Rect): (p: Point)
    ensures p == TopLeft(rect)
    ensures rect.width >= 0.0 && rect.height >= 0.0 ==> OnBoundary(rect, p)
  {
    TopLeft(rect)
  }

  /** An anchor of a rectangle: the midpoint of the named edge, or (0, 0). */
  function AnchorPoint(anchor: Anchor, rect: Rect): (p: Point)
    ensures anchor == Top ==> p == Midpoint(TopLeft(rect), TopRight(rect))
    ensures anchor == Bottom ==> p == Midpoint(BottomLeft(rect), BottomRight(rect))
    ensures anchor == Left ==> p == Midpoint(TopLeft(rect), BottomLeft(rect))
    ensures anchor == Right ==> p == Midpoint(TopRight(rect), BottomRight(rect))
    ensures anchor == Other ==> p == Origin
  {
    match anchor
    case Top => Add(RectToPoint(rect), Point(rect.width / 2.0, 0.0))
    case Bottom => Add(RectToPoint(rect), Point(rect.width / 2.0, rect.height))
    case Left => Add(RectToPoint(rect), Point(0.0, rect.height / 2.0))
    case Right => Add(RectToPoint(rect), Point(rect.width, rect.height / 2.0))
    case Other => Point(0.0, 0.0)
  }

  /** A recognised anchor of a rectangle of non-negative size lies on its boundary. */
  lemma AnchorOnBoundary(anchor: Anchor, rect: Rect)
    requires anchor != Other && rect.width >= 0.0 && rect.height >= 0.0
    ensures OnBoundary(rect, AnchorPoint(anchor, rect))
  {
  }

  /**
   * What the lookup of an element's rectangle yields: the rectangle of a
   * registered element, or `None` for the stand-in point the source returns
   * when there is no element, which has no left, top, width or height.
   */
  function RectFromRef(ref: Option<Ref>, rectOf: Ref -> Rect): (r: Option<Rect>)
    ensures r.Some? <==> ref.Some?
    ensures ref.Some? ==> r.value == rectOf(ref.value)
  {
    match ref
    case Some(r) => Some(rectOf(r))
    case None => None
  }

  function Lookup(refs: map<Key, Ref>, id: Key): Option<Ref>
  {
    if id in refs then Some(refs[id]) else None
  }

  /**
   * The anchor switch applied to the looked-up rectangle. Without a
   * rectangle every recognised anchor reads undefined fields and yields NaN;
   * the default case never reads the rectangle.
   */
  function CoordinatesFromAnchor(anchor: Anchor, rect: Option<Rect>): (p: Pos)
    ensures rect.Some? ==> p == Num(AnchorPoint(anchor, rect.value))
    ensures rect.None? ==> (p.NaN? <==> anchor != Other)
    ensures anchor == Other ==> p == Num(Origin)
  {
    match rect
    case Some(r) => Num(AnchorPoint(anchor, r))
    case None => if anchor == Other then Num(Point(0.0, 0.0)) else NaN
  }

  /** The parent's top-left corner; NaN once subtracted if there is no parent. */
  function ParentCoordinates(parent: Option<Ref>, rectOf: Ref -> Rect): (o: Pos)
    ensures o.Num? <==> parent.Some?
    ensures parent.Some? ==> o == Num(TopLeft(rectOf(parent.value)))
  {
    match RectFromRef(parent, rectOf)
    case Some(rect) => Num(RectToPoint(rect))
    case None => NaN
  }

  /**
   * An anchor of the element registered under `id`, relative to the parent:
   * the absolute anchor point minus the parent's corner when both are known;
   * (0, 0) minus the corner for an unrecognised anchor of an unregistered
   * element; NaN when the parent is unknown or a recognised anchor of an
   * unregistered element is asked for.
   */
  function PointCoordinatesFromAnchor(anchor: Anchor, id: Key, refs: map<Key, Ref>,
                                      parentCoordinates: Pos, rectOf: Ref -> Rect): (p: Pos)
    ensures id in refs && parentCoordinates.Num? ==>
              p == Num(Subtract(AnchorPoint(anchor, rectOf(refs[id])), parentCoordinates.p))
    ensures id !in refs && anchor == Other && parentCoordinates.Num? ==>
              p == Num(Subtract(Origin, parentCoordinates.p))
    ensures p.NaN? <==> parentCoordinates.NaN? || (id !in refs && anchor != Other)
  {
    var rect := RectFromRef(Lookup(refs, id), rectOf);
    var absolutePosition := CoordinatesFromAnchor(anchor, rect);
    SubtractPos(absolutePosition, parentCoordinates)
  }

  /**
   * For a registered element and a parent, the relative endpoint is the
   * absolute anchor point minus the parent's top-left corner; with the parent
   * at the viewport's origin it is the absolute point itself.
   */
  lemma RelativeEndpoint(anchor: Anchor, id: Key, refs: map<Key, Ref>, parent: Ref,
                         rectOf: Ref -> Rect)
    requires id in refs
    ensures PointCoordinatesFromAnchor(anchor, id, refs, ParentCoordinates(Some(parent), rectOf), rectOf)
            == Num(Subtract(AnchorPoint(anchor, rectOf(refs[id])), TopLeft(rectOf(parent))))
    ensures TopLeft(rectOf(parent)) == Origin ==>
              PointCoordinatesFromAnchor(anchor, id, refs, ParentCoordinates(Some(parent), rectOf), rectOf)
              == Num(AnchorPoint(anchor, rectOf(refs[id])))
  {
  }

  /**
   * Moving the element and the parent by the same vector leaves a recognised
   * anchor's relative endpoint where it was.
   */
  lemma RelativeEndpointTranslationInvariant(anchor: Anchor, rect: Rect, parentRect: Rect, t: Point)
    requires anchor != Other
    ensures Subtract(AnchorPoint(anchor, Shift(rect, t)), TopLeft(Shift(parentRect, t)))
            == Subtract(AnchorPoint(anchor, rect), TopLeft(parentRect))
  {
  }

  /** The `!!` of the source: an absent flag reads as false. */
  function Truthy(b: Option<bool>): (r: bool)
    ensures b.None? ==> !r
    ensures b.Some? ==> r == b.value
  {
    b == Some(true)
  }

  /**
   * The props of the arrow computed for one relation: the relative anchor
   * points of its two ends, its two anchors, its start-arrow flag as a
   * boolean, and the container's stroke colour, arrow length and width.
   */
  function ArrowFor(relation: Relation, refs: map<Key, Ref>, parentCoordinates: Pos,
                    props: Props, rectOf: Ref -> Rect): (a: ArrowProps)
    ensures a.startingAnchor == relation.from.anchor && a.endingAnchor == relation.to.anchor
    ensures a.startArrow <==> relation.from.startArrow == Some(true)
    ensures a.strokeColor == props.strokeColor && a.arrowLength == props.arrowLength
    ensures a.strokeWidth == props.strokeWidth
  {
    ArrowProps(
      PointCoordinatesFromAnchor(relation.from.anchor, relation.from.id, refs, parentCoordinates, rectOf),
      relation.from.anchor,
      PointCoordinatesFromAnchor(relation.to.anchor, relation.to.id, refs, parentCoordinates, rectOf),
      relation.to.anchor,
      Truthy(relation.from.startArrow),
      props.strokeColor,
      props.arrowLength,
      props.strokeWidth)
  }

  /**
   * Where an arrow's two ends land: with a stored parent, a registered
   * element's end is its anchor point minus the parent's top-left corner; an
   * end is NaN exactly when there is no parent or its element never
   * registered and its anchor is recognised.
   */
  lemma ArrowEndpoints(relation: Relation, refs: map<Key, Ref>, parent: Option<Ref>, props: Props,
                       rectOf: Ref -> Rect)
    ensures var a := ArrowFor(relation, refs, ParentCoordinates(parent, rectOf), props, rectOf);
            && (relation.from.id in refs && parent.Some? ==>
                  a.startingPoint == Num(Subtract(AnchorPoint(relation.from.anchor, rectOf(refs[relation.from.id])),
                                                  TopLeft(rectOf(parent.value)))))
            && (relation.to.id in refs && parent.Some? ==>
                  a.endingPoint == Num(Subtract(AnchorPoint(relation.to.anchor, rectOf(refs[relation.to.id])),
                                                TopLeft(rectOf(parent.value)))))
            && (a.startingPoint.NaN? <==>
                  parent.None? || (relation.from.id !in refs && relation.from.anchor != Other))
            && (a.endingPoint.NaN? <==>
                  parent.None? || (relation.to.id !in refs && relation.to.anchor != Other))
  {
  }

  /**
   * One arrow per relation, in the order the relations were registered: the
   * i-th arrow is the one computed for the i-th relation.
   */
  function Arrows(fromTo: seq<Relation>, refs: map<Key, Ref>, parentCoordinates: Pos,
                  props: Props, rectOf: Ref -> Rect): (arrows: seq<ArrowProps>)
    ensures |arrows| == |fromTo|
    ensures forall i {:trigger arrows[i]} :: 0 <= i < |fromTo| ==>
              arrows[i] == ArrowFor(fromTo[i], refs, parentCoordinates, props, rectOf)
  {
    if fromTo == [] then []
    else [ArrowFor(fromTo[0], refs, parentCoordinates, props, rectOf)]
         + Arrows(fromTo[1..], refs, parentCoordinates, props, rectOf)
  }

  /** Computing the arrows of a concatenation concatenates the arrows. */
  lemma {:induction false} ArrowsAppend(a: seq<Relation>, b: seq<Relation>, refs: map<Key, Ref>,
                                        parentCoordinates: Pos, props: Props, rectOf: Ref -> Rect)
    ensures Arrows(a + b, refs, parentCoordinates, props, rectOf)
            == Arrows(a, refs, parentCoordinates, props, rectOf)
               + Arrows(b, refs, parentCoordinates, props, rectOf)
  {
    if a == [] {
      assert a + b == b;
    } else {
      var head := [ArrowFor(a[0], refs, parentCoordinates, props, rectOf)];
      assert (a + b)[0] == a[0] && (a + b)[1..] == a[1..] + b;
      ArrowsAppend(a[1..], b, refs, parentCoordinates, props, rectOf);
      calc {
        Arrows(a + b, refs, parentCoordinates, props, rectOf);
        head + Arrows(a[1..] + b, refs, parentCoordinates, props, rectOf);
        head + (Arrows(a[1..], refs, parentCoordinates, props, rectOf)
                + Arrows(b, refs, parentCoordinates, props, rectOf));
        (head + Arrows(a[1..], refs, parentCoordinates, props, rectOf))
        + Arrows(b, refs, parentCoordinates, props, rectOf);
      }
    }
  }

  /** The relation `relation` with its starting element replaced. */
  function WithSource(relation: Relation, fromElement: Key): (r: Relation)
    ensures r.from.id == fromElement
    ensures r.from.anchor == relation.from.anchor && r.from.startArrow == relation.from.startArrow
    ensures r.to == relation.to
  {
    relation.(from := relation.from.(id := fromElement))
  }

  /**
   * The container's state: the registered elements, the relations in the
   * order they were registered, the parent whose corner is the origin, and
   * the elements handed to the resize observer (a ghost record of those
   * calls). Updates through setState are modelled as immediate.
   */
  class ArcherContainer {
    const props: Props
    var refs: map<Key, Ref>
    var fromTo: seq<Relation>
    var parent: Option<Ref>
    ghost var observed: seq<Ref>
    /** For each observation, the key whose element it was. */
    ghost var observedKeys: seq<Key>

    /**
     * The i-th observation is the element of the i-th registered key, and
     * every key was registered exactly once.
     */
    ghost predicate Valid()
      reads this
    {
      && |observedKeys| == |observed|
      && Distinct(observedKeys)
      && (forall k :: k in refs <==> k in observedKeys)
      && forall i :: 0 <= i < |observed| ==> observedKeys[i] in refs && observed[i] == refs[observedKeys[i]]
    }

    constructor (props: Props)
      ensures Valid()
      ensures this.props == props
      ensures refs == map[] && fromTo == [] && parent == None && observed == [] && observedKeys == []
    {
      this.props := props;
      refs := map[];
      fromTo := [];
      parent := None;
      observed := [];
      observedKeys := [];
    }

    /** Re-render with the same state. */
    method RefreshScreen()
      modifies this
      ensures refs == old(refs) && fromTo == old(fromTo) && parent == old(parent)
      ensures observed == old(observed) && observedKeys == old(observedKeys)
      ensures old(Valid()) ==> Valid()
    {
      refs, fromTo, parent := refs, fromTo, parent;
    }

    /** The parent is recorded once; later calls change nothing. */
    method StoreParent(ref: Ref)
      requires Valid()
      modifies this
      ensures Valid()
      ensures old(parent).Some? ==> parent == old(parent)
      ensures old(parent).None? ==> parent == Some(ref)
      ensures refs == old(refs) && fromTo == old(fromTo)
      ensures observed == old(observed) && observedKeys == old(observedKeys)
    {
      if parent.Some? {
        return;
      }
      parent := Some(ref);
    }

    /**
     * The callback registerChild(id) returns, applied to `ref`: the first
     * element given for a key is stored and observed; later ones are ignored.
     */
    method RegisterChild(id: Key, ref: Ref)
      requires Valid()
      modifies this
      ensures Valid()
      ensures id !in old(refs) ==>
                refs == old(refs)[id := ref] && observed == old(observed) + [ref]
                && observedKeys == old(observedKeys) + [id]
      ensures id in old(refs) ==>
                refs == old(refs) && observed == old(observed) && observedKeys == old(observedKeys)
      ensures forall k :: k != id ==> Lookup(refs, k) == Lookup(old(refs), k)
      ensures fromTo == old(fromTo) && parent == old(parent)
    {
      if id !in refs {
        observed := observed + [ref];
        observedKeys := observedKeys + [id];
        refs := refs[id := ref];
      }
    }

    /**
     * Registers `relation` with its starting element set to `fromElement`.
     * As written, the new list is the old list, then a copy of the old list
     * with the new relation pushed onto it.
     */
    method RegisterTransition(fromElement: Key, relation: Relation)
      requires Valid()
      modifies this
      ensures Valid()
      ensures fromTo == old(fromTo) + old(fromTo) + [WithSource(relation, fromElement)]
      ensures refs == old(refs) && parent == old(parent)
      ensures observed == old(observed) && observedKeys == old(observedKeys)
    {
      var copy := fromTo;
      var newFromTo := relation.(from := relation.from.(id := fromElement));
      copy := copy + [newFromTo];
      fromTo := fromTo + copy;
    }

    /** The props of every arrow, read from the current state. */
    function ComputeArrows(rectOf: Ref -> Rect): (arrows: seq<ArrowProps>)
      reads this
      ensures |arrows| == |fromTo|
      ensures forall i :: 0 <= i < |fromTo| ==>
                arrows[i] == ArrowFor(fromTo[i], refs, ParentCoordinates(parent, rectOf), props, rectOf)
    {
      Arrows(fromTo, refs, ParentCoordinates(parent, rectOf), props, rectOf)
    }
  }

  /** No element of `s` occurs twice. */
  ghost predicate Distinct<T>(s: seq<T>)
  {
    forall i, j :: 0 <= i < j < |s| ==> s[i] != s[j]
  }

  /** A sequence without repetitions has as many distinct elements as entries. */
  lemma {:induction false} DistinctCardinality<T>(s: seq<T>)
    requires Distinct(s)
    ensures |set x | x in s| == |s|
  {
    if s != [] {
      var rest := s[..|s| - 1];
      DistinctCardinality(rest);
      assert (set x | x in s) == (set x | x in rest) + {s[|s| - 1]};
      assert s[|s| - 1] !in rest;
    }
  }

  /**
   * In a valid state the resize observer has been handed exactly one element
   * per registered key: as many observations as keys, every registered
   * element among them, and every observation a registered element.
   */
  lemma ObservationsMatchKeys(c: ArcherContainer)
    requires c.Valid()
    ensures |c.observed| == |c.refs|
    ensures forall k :: k in c.refs ==> c.refs[k] in c.observed
    ensures forall i :: 0 <= i < |c.observed| ==> exists k :: k in c.refs && c.refs[k] == c.observed[i]
  {
    DistinctCardinality(c.observedKeys);
    assert c.refs.Keys == set x | x in c.observedKeys;
    forall k | k in c.refs
      ensures c.refs[k] in c.observed
    {
      var i :| 0 <= i < |c.observedKeys| && c.observedKeys[i] == k;
      assert c.observed[i] == c.refs[k];
    }
  }
}

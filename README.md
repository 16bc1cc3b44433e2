# react-archer: anchor resolution, arrow geometry and the relation registry

This project models the core of react-archer, a React component that draws
arrows between elements on a page. It is written in Dafny.

- **Anchors.** An element's bounding rectangle and an anchor name (`top`,
  `bottom`, `left`, `right`, anything else) resolve to a point. The point is
  then expressed relative to the top-left corner of the container's parent
  element.
- **Registry.** `ArcherContainer` keeps the registered elements (`refs`), the
  registered relations in order (`fromTo`) and the parent element. It
  computes the props of one arrow per relation.
- **Arrow.** `SvgArrow` computes the line it draws. The start point is kept
  as given. The end point is pulled back along the anchor's outward direction
  to leave room for the arrowhead marker.

Modules:

- `Geometry` (geometry.dfy): points with componentwise addition and
  subtraction, rectangles, anchors, and `Pos`. `Pos` is a point whose
  coordinates are either numbers or NaN. The repository's `Point` class is not
  part of this model; its `add` and `substract` are taken to be componentwise
  `+` and `-`, as their uses in src/ArcherContainer.js show.
- `SvgArrow` (svg_arrow.dfy): src/SvgArrow.js, as pure functions.
- `Archer` (archer_container.dfy): src/ArcherContainer.js. The anchor
  functions are pure. The component state is the class `ArcherContainer`,
  with fields `refs: map<Key, Ref>`, `fromTo: seq<Relation>`,
  `parent: Option<Ref>`, and the ghost fields `observed: seq<Ref>` and
  `observedKeys: seq<Key>`. `observed` records the elements handed to the
  resize observer, and `observedKeys` the key each of them was registered
  under. `setState` is modelled as an immediate, sequential update.
- `EndToEnd` (end_to_end.dfy): properties that span both files, and a client
  that drives the container through a registration sequence.

`getBoundingClientRect` is a parameter `rectOf: Ref -> Rect` of every
function that measures elements.

Behaviour of the code that a reader might not expect, which the model
follows:

- **Missing element.** A relation whose element never registered does not
  resolve to the origin. The lookup returns a `Point` where a rectangle is
  expected, so a recognised anchor reads `undefined` fields and every
  coordinate becomes NaN. The same happens to every endpoint when no parent
  is stored. An unrecognised anchor gives (0, 0) minus the parent's corner.
  For an ordinary key nothing fails. Keys that name inherited object
  properties are outside the model (see "Left out"). `CoordinatesFromAnchor`,
  `ParentCoordinates`, `PointCoordinatesFromAnchor` and
  `MissingElementGivesNaN` state this.
- **Start arrow.** The start point is never trimmed, even when the relation
  asks for a start arrow. The component does not read `startArrow` at all.
  `ArrowPath`, `ArrowPathIgnoresStartArrow` and `TwoBoxes` state this.
- **Duplicated relations.** Registering a relation appends the old list a
  second time, then the new relation: n relations become 2n + 1. Under
  React's batched updates inside one mount the stale `this.state.fromTo` is
  empty and the lists accumulate correctly. Under the immediate updates
  modelled here, the props of every earlier arrow are computed twice. The two
  copies share one React `key`, and how React renders duplicate keys is not
  modelled.
- **Translation invariance.** Moving the element and the parent together
  leaves the relative endpoint unchanged only for recognised anchors. An
  unrecognised anchor gives (0, 0) minus the parent's corner, which moves.

## Model

| member | source | states |
|---|---|---|
| `Geometry.Subtract` | src/ArcherContainer.js:100 | the difference of two points is the origin exactly when the points are equal |
| `Geometry.Add` | src/ArcherContainer.js:23 | subtracting either summand from a sum gives back the other summand |
| `Geometry.SubtractPos` | src/ArcherContainer.js:100 | the difference has numeric coordinates exactly when both operands do; NaN on either side gives NaN |
| `Geometry.SubtractAdd` | src/ArcherContainer.js:100 | subtracting undoes adding a point, and a point minus itself is the origin |
| `SvgArrow.DirectionVector` | src/SvgArrow.js:4-17 | `Other` and only `Other` gets the zero vector; each recognised anchor gets a vector with exactly one nonzero component, of absolute value 1; the nonzero component is x for left/right and y for top/bottom |
| `SvgArrow.EndingPointAccordingToArrow` | src/SvgArrow.js:19-32 | the end point moves by arrowLength*strokeWidth/2: left decreases x, right increases x, top decreases y, bottom increases y; the other coordinate is kept; an unrecognised anchor leaves the point unchanged whatever the length and width |
| `SvgArrow.EndingPointDisplacement` | src/SvgArrow.js:26-31 | for a recognised anchor, the trimmed point lies arrowLength*strokeWidth/2 along the direction vector and 0 across it |
| `SvgArrow.WiderStrokeTrimsFurther` | src/SvgArrow.js:28-29 | for a recognised anchor and a positive arrow length, a strictly wider stroke moves the end point strictly further along the direction vector |
| `SvgArrow.StartingAnchorPosition` | src/SvgArrow.js:34-49 | top/bottom keep xs and take the midpoint of ys and ye; left/right keep ys and take the midpoint of xs and xe; any other anchor gives (xs, ys) |
| `SvgArrow.EndingAnchorPosition` | src/SvgArrow.js:51-66 | top/bottom keep xe and take the midpoint of ys and ye; left/right keep ye and take the midpoint of xs and xe; any other anchor gives (xe, ye) |
| `SvgArrow.ControlPointsMeet` | src/SvgArrow.js:34-66 | two vertical anchors give control points with the same y, the midpoint's; two horizontal anchors give the same x, the midpoint's |
| `SvgArrow.ArrowPath` | src/SvgArrow.js:68-91 | the line starts at the given start point, untouched; the end moves by exactly arrowLength*strokeWidth along the end anchor's direction, because the arrow length is doubled; a NaN end stays NaN |
| `SvgArrow.ArrowPathIgnoresStartArrow` | src/SvgArrow.js:68-91 | the drawn line does not depend on the start-arrow flag or on the stroke colour |
| `SvgArrow.ArrowPathExample` | src/SvgArrow.js:77-91 | from (100,25) to (200,25) on a left anchor, with length 10 and width 2, the line is (100,25) to (180,25) |
| `Archer.DefaultProps` | src/ArcherContainer.js:223-228 | the default arrow length is 10, the arrow thickness 6, the stroke colour `#f00` and the stroke width 2 |
| `Archer.RectToPoint` | src/ArcherContainer.js:16-18 | the point of a rectangle is its top-left corner, which lies on the rectangle's boundary when its size is non-negative |
| `Archer.AnchorPoint` | src/ArcherContainer.js:16-33 | top, bottom, left and right give the midpoint of that edge's two corners; any other anchor gives (0, 0) whatever the rectangle |
| `Archer.AnchorOnBoundary` | src/ArcherContainer.js:20-29 | a recognised anchor of a rectangle of non-negative size lies inside it and on an edge |
| `Archer.CoordinatesFromAnchor` | src/ArcherContainer.js:77-98 | with a rectangle, the result is the anchor point; without one, the result is NaN exactly for recognised anchors; an unrecognised anchor always gives (0, 0) |
| `Archer.RectFromRef` | src/ArcherContainer.js:77-82 | a stored element gives a rectangle, and it is the element's bounding rectangle; a missing element gives none |
| `Archer.ParentCoordinates` | src/ArcherContainer.js:84-87 | with a stored parent, the origin is the parent rectangle's top-left corner; with none, the coordinates are not numbers |
| `Archer.PointCoordinatesFromAnchor` | src/ArcherContainer.js:89-101 | a registered element with a stored parent gives its anchor point minus the parent's top-left corner; an unregistered element at an unrecognised anchor with a stored parent gives (0, 0) minus that corner; the result is NaN exactly when no parent is stored or an unregistered element sits at a recognised anchor |
| `Archer.RelativeEndpoint` | src/ArcherContainer.js:89-101 | for a registered element and a stored parent, the endpoint is the absolute anchor point minus the parent's top-left corner; a parent at (0, 0) leaves the absolute point |
| `Archer.RelativeEndpointTranslationInvariant` | src/ArcherContainer.js:89-101 | moving the element's rectangle and the parent's by the same vector leaves a recognised anchor's relative endpoint unchanged |
| `Archer.Truthy` | src/ArcherContainer.js:143 | a missing start-arrow flag counts as false; a present one counts as its own value |
| `Archer.ArrowFor` | src/ArcherContainer.js:136-162 | the arrow carries the relation's two anchors; `startArrow` is true exactly when the relation's flag is present and `true`; the arrow has the container's stroke colour, arrow length and stroke width |
| `Archer.ArrowEndpoints` | src/ArcherContainer.js:135-149 | with a stored parent, an end whose element is registered lies at that element's anchor point minus the parent's top-left corner; an end is NaN exactly when no parent is stored, or when its element never registered and its anchor is recognised |
| `Archer.Arrows` | src/ArcherContainer.js:134-163 | one arrow per relation, in order: the i-th arrow is the one `ArrowFor` gives for relation i |
| `Archer.ArrowsAppend` | src/ArcherContainer.js:136-163 | the arrows of two relation lists put together are the two lists' arrows put together |
| `Archer.WithSource` | src/ArcherContainer.js:107-110 | the registered relation is the given one with only its starting element replaced |
| `Archer.ArcherContainer.constructor` | src/ArcherContainer.js:36-46 | the state starts with no elements, no relations, no parent and nothing observed, which is a valid state |
| `Archer.ArcherContainer.RefreshScreen` | src/ArcherContainer.js:59-61 | refreshing leaves every state field as it was, ghost records included, so a valid state stays valid and registration can go on after it |
| `Archer.ArcherContainer.StoreParent` | src/ArcherContainer.js:70-75 | the first parent stored stays: once set, later calls change nothing; otherwise only `parent` changes; observations and their keys are untouched |
| `Archer.ArcherContainer.RegisterChild` | src/ArcherContainer.js:120-132 | a new key gets the element, the element is observed once more and the key is recorded as that observation's key; a known key changes nothing; other keys keep their elements; relations and parent are untouched; the state stays valid: the i-th observation is the element of the i-th key registered, and no key is registered twice |
| `Archer.ArcherContainer.RegisterTransition` | src/ArcherContainer.js:103-118 | the relation list becomes the old list, the old list again, then the new relation with its starting element replaced; elements, parent and observations (with their keys) are untouched; nothing is deduplicated |
| `Archer.ObservationsMatchKeys` | src/ArcherContainer.js:120-132 | in a valid state there are exactly as many observations as registered keys, every registered element has been observed, and every observation is a registered element |
| `Archer.ArcherContainer.ComputeArrows` | src/ArcherContainer.js:134-163 | reads the state without changing it; as many arrows as relations, the i-th computed from relation i with the stored parent's corner as the origin |
| `EndToEnd.DirectionPointsOutward` | src/SvgArrow.js:4-17 | a recognised anchor's direction vector points out of the rectangle: the anchor point lies in it, and any positive step along the vector leaves it |
| `EndToEnd.EndpointTranslationInvariant` | src/ArcherContainer.js:84-101 | moving every element and the parent by one vector leaves a recognised anchor's relative endpoint unchanged, registered or not |
| `EndToEnd.ArrowsTranslationInvariant` | src/ArcherContainer.js:134-163 | moving every element and the parent by one vector leaves every arrow unchanged when all anchors are recognised |
| `EndToEnd.MissingElementGivesNaN` | src/ArcherContainer.js:77-100 | an unregistered element at a recognised anchor, or any endpoint when no parent is stored, has NaN coordinates and does not fail |
| `EndToEnd.ArrowsAfterTransition` | src/ArcherContainer.js:103-117 | after a registration, the computed arrow props are the earlier ones twice over, then the new relation's |
| `EndToEnd.ExampleArrow` | src/ArcherContainer.js:89-162 | with boxes (0,0,100,50) and (200,0,100,50) registered and the parent at the origin, the relation from the first box's right edge to the second box's left edge gives an arrow from (100,25) to (200,25), anchored right and left, with the default colour, length and width |
| `EndToEnd.RegisterTwoBoxes` | src/ArcherContainer.js:103-132 | registering box A into an empty container, then storing the parent, then a refresh, then registering box B twice with different elements, then adding one relation, keeps the first element given for each key, the parent, and the one relation with its starting element set |
| `EndToEnd.ExampleContainerArrow` | src/ArcherContainer.js:134-163 | a container in that state computes exactly one arrow, the one `ExampleArrow` describes |
| `EndToEnd.FirstLine` | src/SvgArrow.js:68-91 | the line drawn for that arrow runs from (100,25) to (180,25) |
| `EndToEnd.TwoBoxes` | src/ArcherContainer.js:103-163 | boxes (0,0,100,50) and (200,0,100,50), a parent at the origin and a relation from the first box's right edge to the second box's left edge give the line (100,25) to (180,25), with or without a start arrow; registering the same key twice keeps the first element; a second relation leaves 3 entries |
| `EndToEnd.Refresh` | src/ArcherContainer.js:59-61 | the arrows computed before and after a refresh are equal |

## Left out

- Rendering is not modelled. This covers the JSX markup, the SVG `<marker>`
  definitions and their path strings, `markerEnd` with `location.href`, the
  arrow's `key`, `style`, `className` and `children`, and the PropTypes
  declarations. They are output formatting with no logic beyond what is
  modelled.
- The path string `M{xs},{ys} L{xe},{ye}` is the datatype `Line(start, end)`.
  Number-to-string formatting and IEEE floating point are not modelled;
  numbers are exact reals.
- The resize observer and the window `resize` listener are not modelled. This
  covers `componentDidMount`, `componentWillUnmount` and the observer
  callback. They are event wiring into browser APIs; only the ghost
  `observed` list records what `registerChild` hands to `observe`.
- `getChildContext` is left out: it only hands two methods to child components.
- `getBoundingClientRect` is a foreign DOM call. It is the parameter `rectOf`.
- Asynchronous and batched `setState` are not modelled. Updates are immediate
  and sequential. The spread of the undefined `this.currentState` contributes
  nothing, and the fields the update does not name are kept.
- The DOM passes `null` to ref callbacks when an element unmounts. This is not
  modelled: `Ref` is never null.
- `Archer.ArcherContainer.RegisterChild`: keys that name properties every
  JavaScript object inherits ("constructor", "toString", "__proto__" and the
  like) are not modelled. The source keeps elements in a plain object and
  tests a key with `!this.state.refs[id]`, so such a key is never stored, and
  computing an arrow for it then fails with a TypeError when it reads a
  rectangle from the inherited value. A `Key` here is an ordinary map key.
- The React `key` of each arrow, `JSON.stringify` of its relation, is not
  modelled. Duplicated relations give arrows with the same key, and how React
  renders those is left out with the rest of rendering.
- `Archer.CoordinatesFromAnchor`: for a missing element only "NaN or not" is
  stated. The model does not track separately which coordinate JavaScript
  makes NaN or `undefined`.
- Start-point trimming and start markers are not modelled, because the code
  does not implement them.

# Chess-piece picking and car framing: a Dafny model

A model of the logic the three.js study scripts implement themselves. Rendering,
loading and ray casting all belong to the library and are left out. Two scripts hold
logic of their own:

- **study/chess.js**: the centre of each board cell, the fixed opening layout of the
  32 pieces, and the click handler. The handler keeps one piece of state, the
  selected mesh. Each click changes that state and starts animations: it raises
  and spins a newly selected piece, lowers the previous one, or slides the
  selected piece to the clicked point of the board and drops it there.
- **study/16-animation.js**: how each loaded car model is scaled and placed on the
  stand, which object a double click frames (the first car under the ray,
  otherwise the stand), and where framing puts the orbit target (the centre of
  the framed bounding box).

Modules, one file each:

- `Wrappers` (wrappers.dfy): `Option`, which stands for a reference that may be null.
- `Geometry` (geometry.dfy): vectors, boxes, a box's centre, and pointer-to-device
  coordinates.
- `ChessBoard` (chess_board.dfy): cell centres, the layout table, and the
  `ChessScene` class into which the piece meshes are added.
- `ChessSelection` (chess_selection.dfy): the pick classification, the `Step`
  function, and the `ClickHandler` class with its `OnClick` method. `Settle` says
  what the started animations mean: the positions the pieces reach once the
  animations finish.
- `CarViewer` (car_viewer.dfy): placement arithmetic, the double-click dispatch,
  and the `Viewer` class with `ZoomFit`.

Numbers are exact reals. Ray-cast results are inputs: the list of hits, nearest
first, or for the car viewer a predicate saying which objects the ray meets.
Animations are outputs, recorded by their target values. The two full-turn
rotation targets are the tokens `PlusTwoPi` and `MinusTwoPi`.

Where the model departs from the scripts as written:

- The script sets the orbit target through a field `_controls`, but it saved the
  controls as `_constrols`, and it calls an undeclared `MathUtils.tan`. The model
  sets "the controls' target" as evidently intended. The script writes the camera
  position and the controls' target directly, so `Viewer.ZoomFit` changes state.
- The script registers the double-click listener under the event name
  `"dblClick"`, which the DOM never fires (its event is `dblclick`). The model
  describes the handler as if it were called.

Behaviour of the click handler that the model keeps as written: a click that hits
nothing deselects but does not lower the selected piece. That piece stays at the
raised height without being selected. For this reason `Consistent` promises that
the selected piece is raised, not that it is the only raised piece.

## Model

| member | source | states |
|---|---|---|
| `Geometry.Center` | three.js-master/three.js-master/study/16-animation.js:124 | for a well-formed box the centre is equidistant from both corners on every axis and lies inside the box; an empty box (upper corner below the lower one on some axis) has the origin as its centre, as `Box3.getCenter` gives |
| `Geometry.CenterIsMidpoint` | three.js-master/three.js-master/study/16-animation.js:124 | for a well-formed box, any point equidistant from both corners on every axis is the centre |
| `Geometry.PointerToNdc` | three.js-master/three.js-master/study/chess.js:43-44 | a pointer inside the area maps into [-1, 1] on each axis, and only such a pointer does; the left and right edges map to x = -1 and x = 1; the top and bottom edges map to y = 1 and y = -1 |
| `Geometry.PointerToNdcRoundTrip` | three.js-master/three.js-master/study/16-animation.js:93-96 | the pixel position can be recovered exactly from the device coordinates |
| `ChessBoard.CellCentre` | three.js-master/three.js-master/study/chess.js:201-206 | the centre of cell i is (2i - 7)/16 of the board width; for the eight cells it lies within 7/16 of the width from the middle, so strictly inside the board |
| `ChessBoard.CellCentreMirror` | three.js-master/three.js-master/study/chess.js:205-206 | cell 7 - i has the negated centre of cell i |
| `ChessBoard.CellCentreStep` | three.js-master/three.js-master/study/chess.js:202-206 | neighbouring cell centres are exactly one eighth of the width apart |
| `ChessBoard.CellCentreIncreasing` | three.js-master/three.js-master/study/chess.js:205-206 | on a board of positive width, centres strictly increase with the index |
| `ChessBoard.BoardPosition` | three.js-master/three.js-master/study/chess.js:198-208 | (row, col) maps to ((2col - 7)w/16, (2row - 7)w/16), where w is the board box's x extent |
| `ChessBoard.Layout` | three.js-master/three.js-master/study/chess.js:149-185 | the opening table has 32 entries |
| `ChessBoard.Entry` | three.js-master/three.js-master/study/chess.js:150-184 | the rule behind the table puts every entry in a start row (0, 1, 6 or 7) and on the board |
| `ChessBoard.LayoutFollowsRule` | three.js-master/three.js-master/study/chess.js:150-184 | every entry of the literal table equals the rule's entry |
| `ChessBoard.EntrySquaresDistinct` | three.js-master/three.js-master/study/chess.js:150-184 | different entries of the rule stand on different cells |
| `ChessBoard.BackRankNotPawn` | three.js-master/three.js-master/study/chess.js:159-166 | no back-rank file holds a pawn |
| `ChessBoard.BackRankDistinct` | three.js-master/three.js-master/study/chess.js:159-166 | different back-rank files hold different (kind, ordinal) pairs |
| `ChessBoard.EntryNamesDistinct` | three.js-master/three.js-master/study/chess.js:150-184 | different entries of the rule differ in colour, kind or ordinal |
| `ChessBoard.MeshNameShape` | three.js-master/three.js-master/study/chess.js:188-189 | a mesh name's length, its first character and its 7th and 8th characters fix its colour and kind, and its last character fixes its ordinal |
| `ChessBoard.MeshNameInjective` | three.js-master/three.js-master/study/chess.js:150-189 | equal mesh names come from the same colour, kind and ordinal |
| `ChessBoard.LayoutWellFormed` | three.js-master/three.js-master/study/chess.js:149-185 | 32 pieces, all in start rows and on the board, on pairwise distinct cells, with pairwise distinct mesh names |
| `ChessBoard.LayoutFillsStartRows` | three.js-master/three.js-master/study/chess.js:149-185 | every cell of rows 0, 1, 6 and 7 holds a piece, so each of those rows holds eight |
| `ChessBoard.HorsesPlacement` | three.js-master/three.js-master/study/chess.js:187-196 | on a board of positive width w, the 32 created meshes rest at y = 0.3 on their cell centre, with x = (2col - 7)w/16 and z = (2row - 7)w/16; all lie strictly inside the board, with distinct names and distinct positions |
| `ChessBoard.ChessScene.constructor` | three.js-master/three.js-master/study/chess.js:143-147 | once the board is added, the scene records its box and holds no pieces |
| `ChessBoard.ChessScene.CreateHorse` | three.js-master/three.js-master/study/chess.js:187-196 | appends exactly the mesh for the entry, placed at its board position and the rest height |
| `ChessBoard.ChessScene.CreateHorses` | three.js-master/three.js-master/study/chess.js:149-185 | appends the meshes of the whole opening layout, in table order |
| `ChessSelection.Classify` | three.js-master/three.js-master/study/chess.js:46-56 | only the nearest hit counts; no hit means nothing was picked; the hit is a piece pick exactly when its parent is not named "Board"; a board pick carries the hit point |
| `ChessSelection.Step` | three.js-master/three.js-master/study/chess.js:53-98 | a new selection only comes from picking a different piece, which is raised to y = 4; re-picking the selected piece deselects it without raising; a previous selection is lowered to y = 0.3 after any piece pick; a board pick deselects and starts with the slide-then-drop timeline of the selected piece; a board pick with no selection, or a pick of nothing, deselects and starts nothing |
| `ChessSelection.Click` | three.js-master/three.js-master/study/chess.js:42-99 | the selection after a click is the nearest hit's object and is never part of the board |
| `ChessSelection.ApplyTween` | three.js-master/three.js-master/study/chess.js:60-90 | a tween changes only its own target object's pose and tracks the same objects |
| `ChessSelection.ApplyTweens` | three.js-master/three.js-master/study/chess.js:78-88 | a timeline leaves untouched every object none of its tweens targets |
| `ChessSelection.Finish` | three.js-master/three.js-master/study/chess.js:60-90 | finishing an animation keeps the set of tracked objects |
| `ChessSelection.Settle` | three.js-master/three.js-master/study/chess.js:60-90 | settling a click's animations keeps the set of tracked objects |
| `ChessSelection.SettleAppend` | three.js-master/three.js-master/study/chess.js:60-72 | settling two batches of animations equals settling the first batch, then the second |
| `ChessSelection.SettlePair` | three.js-master/three.js-master/study/chess.js:60-62 | two animations started together settle as the first followed by the second |
| `ChessSelection.SettleRaise` | three.js-master/three.js-master/study/chess.js:60-62 | a raised piece ends at y = 4 with x and z kept; nothing else moves |
| `ChessSelection.SettleLower` | three.js-master/three.js-master/study/chess.js:70-72 | a lowered piece ends at y = 0.3 with x and z kept; nothing else moves |
| `ChessSelection.SettleMoveTo` | three.js-master/three.js-master/study/chess.js:78-90 | the moved piece ends at (point.x, 0.3, point.z); nothing else moves |
| `ChessSelection.StepSettles` | three.js-master/three.js-master/study/chess.js:53-98 | after a click's animations finish, the picked piece is at y = 4 if selected and at y = 0.3 if toggled off, with x and z kept; the previous piece is at y = 0.3; a board pick leaves the selected piece on the hit point at y = 0.3; no other object moves |
| `ChessSelection.ClickKeepsConsistent` | three.js-master/three.js-master/study/chess.js:42-99 | one click keeps the selection a tracked non-board object standing raised |
| `ChessSelection.RunKeepsConsistent` | three.js-master/three.js-master/study/chess.js:42-99 | after any sequence of clicks, the selection is still a non-board object standing raised, and the set of tracked objects is unchanged |
| `ChessSelection.ClickHandler.constructor` | three.js-master/three.js-master/study/chess.js:37-40 | the handler starts with no selection and no animations |
| `ChessSelection.ClickHandler.OnClick` | three.js-master/three.js-master/study/chess.js:42-99 | the new selection and the newly started animations are those of `Click` on the old selection; the selection never becomes part of the board |
| `CarViewer.UniformScale` | three.js-master/three.js-master/study/16-animation.js:50-51 | the scale is positive and makes a model of positive depth exactly one unit long |
| `CarViewer.XOffset` | three.js-master/three.js-master/study/16-animation.js:52 | offsets lie in [-0.5, 0.5]; only the first model sits at -0.5 and only the last at 0.5 |
| `CarViewer.XOffsetIncreasing` | three.js-master/three.js-master/study/16-animation.js:52 | offsets strictly increase with the model index |
| `CarViewer.XOffsetSpacing` | three.js-master/three.js-master/study/16-animation.js:52 | neighbouring offsets are 1/(n - 1) apart |
| `CarViewer.Placement` | three.js-master/three.js-master/study/16-animation.js:49-54 | the placed model is exactly one unit long in z, its lowest point is at y = 0, and it sits at its x offset with z = 0 |
| `CarViewer.PlacementKeepsShape` | three.js-master/three.js-master/study/16-animation.js:49-54 | placement keeps the box well formed and scales its x and y extents by 1/depth |
| `CarViewer.Cars` | three.js-master/three.js-master/study/16-animation.js:99-104 | the cars collected are exactly the objects named "car"; with `CarsAppend` this fixes them as those objects in traversal order, each as often as it occurs |
| `CarViewer.CarsAppend` | three.js-master/three.js-master/study/16-animation.js:99-104 | the cars of two consecutive stretches of the traversal are the cars of the first followed by those of the second |
| `CarViewer.CarsConsCar` | three.js-master/three.js-master/study/16-animation.js:100-103 | when the first object is a car, it is the first car collected, followed by the cars of the rest |
| `CarViewer.CarsConsOther` | three.js-master/three.js-master/study/16-animation.js:100-103 | an object not named "car" adds nothing to the cars |
| `CarViewer.FirstMetCar` | three.js-master/three.js-master/study/16-animation.js:99-113 | the first collected car the ray meets is the first object in traversal order that is a car the ray meets |
| `CarViewer.FirstMetCarAfterCar` | three.js-master/three.js-master/study/16-animation.js:106-113 | when the first car the ray meets is not the first car, the ray misses the first car and the rest of the search finds the same car one place earlier |
| `CarViewer.FirstCarMetCons` | three.js-master/three.js-master/study/16-animation.js:106-113 | an object before the rest that is not a car met by the ray keeps "no earlier car is met" true, shifted by one |
| `CarViewer.ObjectByName` | three.js-master/three.js-master/study/16-animation.js:116 | finds the first object in traversal order with the name, or none when no object has it |
| `CarViewer.PickFrameTarget` | three.js-master/three.js-master/study/16-animation.js:99-117 | cars are tested in order, and testing stops at the first one the ray meets; that car is framed at 70 degrees; if no car is met, all cars are tested and the "box" object is framed at 45 degrees, or nothing if there is none |
| `CarViewer.DispatchedFramesCarOrBox` | three.js-master/three.js-master/study/16-animation.js:100-117 | a frame at 70 degrees targets an object named "car" that the ray meets; a frame at 45 degrees targets the "box" |
| `CarViewer.DispatchedFramesFirstCar` | three.js-master/three.js-master/study/16-animation.js:99-117 | a frame at 70 degrees targets the first object in traversal order that is named "car" and met by the ray; a car is framed exactly when the ray meets some object named "car" |
| `CarViewer.DispatchedUnique` | three.js-master/three.js-master/study/16-animation.js:106-117 | the frame and the number of cars tested are determined by the scene and the ray |
| `CarViewer.Viewer.constructor` | three.js-master/three.js-master/study/16-animation.js:140-151 | the viewer starts with the given field of view, camera position and orbit target |
| `CarViewer.Viewer.ZoomFit` | three.js-master/three.js-master/study/16-animation.js:121-137 | the orbit target becomes the box centre, and the camera moves to the box centre plus the approach offset |
| `CarViewer.Viewer.OnDblClick` | three.js-master/three.js-master/study/16-animation.js:90-118 | frames exactly what `PickFrameTarget` picks; when nothing can be framed, the camera and the target are unchanged |

## Left out

- Renderer, scene, camera, lights, resize handling and the animation-frame loop are library plumbing with no logic of their own.
- Asset loading (the GLTF scenes, and through them the board's box and each car's box) is asynchronous library I/O. Boxes enter the model as inputs. The order in which car loads complete decides their traversal order; the model takes that order as given.
- Ray casting (`setFromCamera`, `intersectObjects`, `intersectObject`): its results are inputs. For the chess board these are the hits nearest first; for the viewer, a predicate saying which objects the ray meets.
- The scene traversal and a model's hierarchy are taken as a flat sequence in traversal order.
- gsap durations and interpolation: only the target values of the tweens are kept, and the full-turn rotations are tokens. `Settle` assumes each click's animations finish before the next click; overlapping tweens from quick successive clicks are not modelled.
- CarViewer.Viewer.ZoomFit: the camera offset (rotating (0, 1, 0) about x by the view angle, scaled by half the box diagonal over the tangent of half the field of view) is trigonometry and a square root, so it is a function parameter `approach`.
- ChessBoard.ChessScene.CreateHorses: the 32 literal `_createHorse` calls are modelled as one table walked in the same order.
- Mesh and model names are built from colour, kind and ordinal in the scripts' format ("White-Pawn-3", "Black-King"). Cloning the model mesh is not modelled; a mesh records the model name instead.
- CarViewer.Placement, CarViewer.XOffset: the script's model count is the constant 2. The model takes any count of at least 2, because one model would divide by zero. A model of zero depth would give an infinite scale, so depth must be positive.
- CarViewer.PickFrameTarget: when the scene holds no object named "box", the script hands `undefined` to `_zoomFit`, which throws; the model returns no frame and leaves the camera as it was.
- The two `console.log` calls of the click handler (study/chess.js:50-51), which print the picked object's name and its parent's name, are debugging output and are not modelled.
- Floating-point rounding is not modelled; all arithmetic is exact real arithmetic.
- The other six study scripts (geometry, text geometry and material showcases) only pass parameters to the library and are not part of this model.

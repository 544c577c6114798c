# Blockcraft-54: a Dafny model of the demos' discrete logic

Blockcraft-54 is a set of WebGL and Three.js demos: a block puzzle with T-shaped
pieces, a small WebGL application with colour picking, two orbit cameras, a grid
floor, a Wavefront OBJ converter, and examples from a Three.js book (an arena map,
a city scene and its gray palette). This project models the parts of those demos
that compute something exactly, and proves what they promise.

- `selection_controller.dfy` (module `Selection`): the drag-and-place controller of the
  puzzle. Mouse-down selects and highlights the piece under the cursor and records
  the grab offset. Mouse-move drags the piece to integer positions. Mouse-up places
  and releases it. Raycasts are `Option` inputs, and the `change` events are counted
  in a ghost field.
- `transform_controls.dfy` (module `Gizmo`): the rotation gizmo. Two `while` loops
  turn an accumulated angle into whole quarter turns. The model proves the
  conservation law, the settled window, termination, and that small moves add up.
- `tshape.dfy` (module `TShapes`): the four layouts of the T piece, the rule that
  picks one after a turn, grid occupancy and the emissive highlight.
- `main_app.dfy` (module `App`): picking-id decoding, picking coordinates, the
  drawable lookup, and the mouse handlers of the WebGL app.
- `app_camera.dfy` (module `AppCamera`) and `orbit_camera.dfy` (module `OrbitCamera`):
  the clamping and wrapping updates of the two cameras.
- `obj_parser.dfy` (module `ObjParser`) and `obj_data.dfy` (module `ObjData`): the OBJ
  converter, and what it makes of the cube it carries.
- `floor.dfy` (module `GridFloor`): the grid-floor generator.
- `arena.dfy` (module `Arena`): the arena map parser and the keydown mapping.
- `gray_colors.dfy` (module `GrayColors`): the gray palette and `generateRandomColorHex`.
- `city.dfy` (module `City`): the city scene layout.
- Shared modules:
  - `jsmath.dfy` (`JsMath`): JavaScript number operations over exact reals.
  - `vectors.dfy` (`Vectors`): triples and grid cells.
  - `options.dfy` (`Options`): an `Option` type.

Modelling conventions:

- JavaScript numbers are exact `real`s: no rounding error, no NaN and no infinities.
- `Math.round(x)` is `(x + 0.5).Floor`: JavaScript's `Math.round` rounds halves toward
  +infinity, so -2.5 rounds to -2, not to -3. The model follows that definition.
- `%` truncates toward zero, as in JavaScript.
- `| 0` converts with ToInt32.
- The bit operations of the picking decode and of the gray replication are done on
  `bv32`.
- `Math.random()` calls become parameters in [0, 1), in the order the source makes
  them.
- Python's `float` followed by `str` is an oracle `repr: string -> Option<string>` on
  one token. `None` stands for a ValueError, which aborts the script.
- The cube in `input_data` (obj_parser.py:2-44) is written as its token records: each
  line is its tokens joined by single spaces, and the text is a newline followed by
  every line and its newline.

## Model

| member | source | states |
|---|---|---|
| JsMath.Floor | game-development-with-three.js-book-codes-main/chapter-2/city_scene/city.js:5 | Math.floor(x) is the integer r with r <= x < r + 1 |
| JsMath.Round | TShape.js:112-114 | Math.round(x) is the integer r with r - 0.5 <= x < r + 0.5 (halves round up) |
| JsMath.RoundOfInteger | SelectionController.js:134-136 | rounding an integer returns it |
| JsMath.RoundUnique | TShape.js:112-114 | an x in [n - 0.5, n + 0.5) rounds to n and to nothing else |
| JsMath.Trunc | game-development-with-three.js-book-codes-main/chapter-2/city_scene/gray_scale_colors.js:25 | truncation toward zero: below x for x >= 0, above x for x < 0, within 1 |
| JsMath.JsRem | Camera.js:46 | JS `x % m`: lies strictly inside (-m, m), has the sign of x, and x minus it is a whole multiple of m |
| JsMath.JsRemSmall | Camera.js:46 | a dividend already inside (-m, m) is returned unchanged |
| JsMath.Max | Camera.js:50 | Math.max returns one of its arguments and is at least both |
| JsMath.Min | Camera.js:50 | Math.min returns one of its arguments and is at most both |
| JsMath.ToInt32 | game-development-with-three.js-book-codes-main/chapter-2/city_scene/gray_scale_colors.js:25 | `x \| 0` lies in the int32 range and equals the truncation whenever that fits |
| Vectors.RoundCell | TShape.js:108-116 | each cell coordinate is the Math.round of the matching component |
| Vectors.Snap | SelectionController.js:134-136 | the snapped vector is integral and within half a unit of v on every axis |
| Vectors.SnapIntegral | SelectionController.js:134-136 | snapping an integral vector leaves it unchanged |
| Vectors.SnapIdempotent | SelectionController.js:134-136 | snapping twice is snapping once |
| Vectors.RoundCellOfCell | TShape.js:108-116 | rounding the coordinates of a cell gives the cell back |
| Selection.FirstSelectable | SelectionController.js:57-68 | null iff no candidate matches (the hit is the piece, one of its children, or has it as parent); otherwise the first matching candidate, which is in the list |
| Selection.SelectionController.FindSelectable | SelectionController.js:57-68 | the for loop with early return gives exactly FirstSelectable |
| Selection.PlacementOnGrid | SelectionController.js:124-136 | point + normal - offset, snapped, is integral, within half a unit of the target on each axis, and snapping it again changes nothing |
| Selection.GrabPointKept | SelectionController.js:90-136 | a piece at integer p grabbed at plane point q and dragged at the same q over an integer normal n lands on p + n |
| Selection.SelectionController.constructor | SelectionController.js:10-19 | nothing selected, zero offset, no events |
| Selection.SelectionController.OnMouseDown | SelectionController.js:71-106 | with no hit, or no selectable: nothing changes and no event. Otherwise `selected` is the first selectable, it is highlighted once, the offset becomes planePoint - position (kept without a plane hit), and exactly one event is counted |
| Selection.SelectionController.OnMouseMove | SelectionController.js:111-148 | with no selection or no plane hit: nothing changes and no event. Otherwise the selected piece moves to the snapped placement and exactly one event is counted; no other piece changes |
| Selection.SelectionController.OnMouseUp | SelectionController.js:152-173 | with no selection: nothing. Otherwise the piece is placed (when the plane is hit), highlighting is removed, one event is counted and the selection is cleared |
| Selection.GrabAndDragInPlace | SelectionController.js:71-148 | select then drag with the cursor held still: the piece moves by exactly the face normal, and two events are counted |
| Gizmo.SnapStepsCharacterised | TransformControls.js:77-86 | SnapSteps(v) leaves v - steps * PI/2 in (-PI/4, PI/4], and no other step count does |
| Gizmo.SnapStepsShift | TransformControls.js:77-86 | shifting the accumulator by k quarter turns shifts the step count by k |
| Gizmo.TurnsOverTotal | TransformControls.js:72-86 | over any run of moves, the turns applied equal those of a single move by the total angle: small moves accumulate and are not lost |
| Gizmo.AccumulatorAfterTotal | TransformControls.js:72-86 | after any run of moves from a settled accumulator, the accumulator is the settled remainder of start plus total angle, independent of how the total is split |
| Gizmo.SettledStays | TransformControls.js:77-86 | an accumulator already in (-PI/4, PI/4] takes no step and is left as it is |
| Gizmo.EightSixteenthsMakeOneTurn | TransformControls.js:51-86 | eight moves of PI/16 from a reset accumulator give exactly one quarter turn. Only the fifth move turns, by one step (per-move steps [0, 0, 0, 0, 1, 0, 0, 0]), and the accumulator ends at 0 |
| Gizmo.TransformControls.constructor | TransformControls.js:4-44 | axis size 2, rings 'x', 'y', 'z', each an axis that handleMouseMove accepts; no axis, inactive, no target, accumulator 0 |
| Gizmo.TransformControls.HandleMouseMove | TransformControls.js:48-103 | if inactive, without a target or with an unrecognised axis, nothing changes. Otherwise steps * PI/2 + new accumulator == old accumulator + delta (movementY * 0.02 for x and z, movementX * 0.02 for y), the accumulator ends in (-PI/4, PI/4], steps == SnapSteps, and one turn (axis, steps) is applied iff steps != 0; both loops terminate |
| Gizmo.TransformControls.Attach | TransformControls.js:106-112 | sets the target, shows the gizmo and copies the target's position and rotation; the drag state is kept |
| Gizmo.TransformControls.Detach | TransformControls.js:114-117 | clears the target and hides the gizmo; nothing else changes |
| Gizmo.TransformControls.HandleMouseDown | TransformControls.js:119-127 | returns true iff the hit has a truthy axis; then it selects that axis, activates and resets the accumulator, and otherwise nothing changes |
| Gizmo.TransformControls.HandleMouseUp | TransformControls.js:129-132 | deactivates and clears the axis; the target and the accumulator are kept |
| TShapes.LayoutIsTranslate | TShape.js:4-29 | each layout is the center layout moved by its offset |
| TShapes.LayoutsAreTranslates | TShape.js:4-29 | top, left and right are the center set moved by (0,0,1), (1,0,0) and (-1,0,0) |
| TShapes.LayoutsMovePivotToOrigin | TShape.js:11-28 | each layout is the center layout moved so that its pivot block (3 for top, 2 for left, 1 for right) sits at the origin |
| TShapes.LayoutsWellFormed | TShape.js:4-29 | every layout has four pairwise distinct cells, all with y = 0 |
| TShapes.ChooseLayout | TShape.js:86-96 | the priority rule, in both directions: top iff topY < centerY; left iff not top and leftY < centerY; right iff neither and rightY < centerY; center otherwise |
| TShapes.ChosenPivotIsLowest | TShape.js:75-96 | the chosen pivot sits at the origin and lies below the center block; center is kept only when no block is lower |
| TShapes.OccupiedCells | TShape.js:107-117 | one cell per child, in child order, each component rounded |
| TShapes.OccupiedCellsAreNearest | TShape.js:107-117 | a child is reported in cell c exactly when its world position lies in the unit box around c |
| TShapes.OccupiedCellsOfPlacedPiece | TShape.js:107-117 | an unrotated piece at an integer cell occupies its layout moved to that cell |
| TShapes.Painted | TShape.js:122-128 | the traversal list keeps its length and each node is painted independently |
| TShapes.PaintedEffect | TShape.js:122-128 | every emissive mesh shows the colour, and every other node is left exactly as it was |
| TShapes.PaintedLastWins | TShape.js:122-144 | painting twice is painting once with the second colour |
| TShapes.PaintedIdempotent | TShape.js:138-140 | highlighting twice is highlighting once |
| TShapes.InitialParts | TShape.js:39-62 | a fresh piece traverses as the group, then four boxes with the material, each followed by its edge lines |
| TShapes.TShape.constructor | TShape.js:32-42 | four distinct new boxes at the center-set positions, in order |
| TShapes.TShape.UpdateBlockPositions | TShape.js:70-105 | child i ends at cell i of the layout the priority rule picks from the world heights |
| TShapes.TShape.SetEmissiveColor | TShape.js:122-128 | the parts become Painted(old parts, colour); the position is kept |
| TShapes.TShape.OnHoverEnter | TShape.js:130-132 | paints 0x555555 |
| TShapes.TShape.OnHoverExit | TShape.js:134-136 | paints 0x000000, the same state as RemoveHighlight |
| TShapes.TShape.Highlight | TShape.js:138-140 | paints 0xffff00 |
| TShapes.TShape.RemoveHighlight | TShape.js:142-144 | paints 0x000000 |
| App.DecodeBytes | main.js:220 | (p0 << 16) \| (p1 << 8) \| p2 equals p0 * 65536 + p1 * 256 + p2 and lies in [0, 2^24) |
| App.DecodeInjective | main.js:216-220 | two pixels decoding to the same id have the same red, green and blue bytes |
| App.PickingFlipsY | main.js:200-201 | y is measured up from the bottom edge: the bottom edge is row 0, the top edge is row height, moving down lowers y, and x grows with clientX |
| App.FindDrawable | main.js:222 | null iff no drawable has the id; otherwise the first drawable with that id |
| App.WebGLApp.constructor | main.js:3-16 | nothing selected, no object drag, last mouse position (0, 0) |
| App.WebGLApp.HandlePicking | main.js:196-224 | selectedObject becomes the lookup of the id decoded from the pixel at (clientX - left, bottom - clientY); a miss overwrites the old value with null |
| App.WebGLApp.HandleMouseDown | main.js:142-155 | left button: picks, and starts an object drag from the click position iff something was picked. Any other button: camera drag only, and object state is unchanged |
| App.WebGLApp.HandleMouseUp | main.js:157-161 | clears both drag flags and the selection |
| App.WebGLApp.MoveSelectedObject | main.js:175-188 | translation[0] grows by dx; translation[1] and translation[2] are kept |
| App.WebGLApp.HandleMouseMove | main.js:163-173 | a camera drag takes priority and turns the camera. Otherwise an object drag moves the picked drawable by clientX - lastMouseX and records the new mouse position. Otherwise nothing changes |
| App.WebGLApp.HandleMouseWheel | main.js:191-194 | the camera distance is clamped to [min, max] after the zoom; yaw and pitch are kept |
| App.DragTelescopes | main.js:142-188 | over one drag, translation.x grows by exactly the final clientX minus the clientX at mouse-down |
| AppCamera.ClampInRange | Camera.js:50 | with lo <= hi the clamp lies in [lo, hi], keeps a value already inside, and gives lo below and hi above |
| AppCamera.Camera.constructor | Camera.js:2-17 | the defaults: yaw 0, pitch 0, distance 5 within [2, 20], sensitivity 0.3, and so on; the invariant holds |
| AppCamera.Camera.UpdateMouse | Camera.js:44-51 | yaw -= dx * sensitivity, then JS `%` 360; pitch += dy * sensitivity, then clamped to [-89, 89]; distance is kept and the invariant is preserved |
| AppCamera.Camera.HandleMouseWheel | Camera.js:53-58 | distance += dy * zoomSpeed, then clamped to [minDistance, maxDistance]; yaw and pitch are kept and the invariant is preserved |
| AppCamera.MouseUpdateBounds | Camera.js:44-51 | after any update the pitch is in [-89, 89] and an in-range pitch is stored unchanged; the yaw is strictly inside (-360, 360), keeps the sign of the turned value, and an in-range yaw is unchanged |
| OrbitCamera.MaxPitchPositive | camera.js:41 | PI/2 - 0.01 lies in (1.5, 1.6), so it is positive |
| OrbitCamera.Camera.constructor | camera.js:2-10 | stores radius, pitch, yaw and target as given; the limits are [1, 100] and zoomSpeed is 0.1 |
| OrbitCamera.Camera.UpdateRadius | camera.js:12-15 | radius += delta * 0.1, then clamped into [1, 100]; nothing else changes |
| OrbitCamera.Camera.UpdateOrbit | camera.js:36-45 | yaw += deltaYaw with no wrap; pitch += deltaPitch, then clamped to [-maxPitch, maxPitch]; the radius is kept |
| OrbitCamera.OrbitPitchBounds | camera.js:36-42 | after an orbit the pitch is in [-maxPitch, maxPitch], and an in-range pitch is kept exactly |
| OrbitCamera.ConstructedOutOfRange | camera.js:2-10 | the constructor does not clamp: a camera built with radius 500 is out of range until the first zoom |
| ObjParser.LineBreaksAreSpace | obj_parser.py:81 | every splitlines() boundary is whitespace for strip() |
| ObjParser.Strip | obj_parser.py:81 | strip() returns the slice between leading and trailing whitespace, and it neither starts nor ends with whitespace |
| ObjParser.Split | obj_parser.py:51 | split() yields non-empty whitespace-free tokens |
| ObjParser.SplitCovers | obj_parser.py:51 | split() drops only whitespace: s is a whitespace run, then the tokens with a non-empty whitespace run between each two, then a whitespace run |
| ObjParser.SplitJoin | obj_parser.py:51 | split() recovers any list of non-empty whitespace-free tokens joined by single spaces |
| ObjParser.SplitLines | obj_parser.py:81 | no produced line contains a line break, and a non-empty text has at least one line |
| ObjParser.SplitLinesFirst | obj_parser.py:81 | a text without a break is one line; otherwise the first line ends at the first break |
| ObjParser.JoinSplitLines | obj_parser.py:81 | "\n".join(s.splitlines()) == s for every text whose breaks are all "\n" and that does not end with one |
| ObjParser.JoinCommaCount | obj_parser.py:52 | ", ".join of comma-free fields contains one comma fewer than there are fields |
| ObjParser.DigitsRoundTrip | obj_parser.py:94 | the decimal digits of n read back as n |
| ObjParser.ParseIntOfString | obj_parser.py:60 | int(str(n)) == n for every integer |
| ObjParser.Tagged | obj_parser.py:49-50 | a line is kept iff it is an input line starting with the tag: every kept line is tagged and in the input, and every tagged input line is kept |
| ObjParser.TaggedAppend | obj_parser.py:49-50 | filtering a concatenation is filtering each part, in order: the lines keep their input order |
| ObjParser.TaggedCounts | obj_parser.py:49-50 | each tagged line is kept exactly as often as it occurs in the input, and no untagged line is kept |
| ObjParser.TagsExclusive | obj_parser.py:47-77 | a line starts with at most one of "v ", "vn ", "vt " and "f ": vn and vt lines are not vertices |
| ObjParser.RecordsOfTagged | obj_parser.py:47-77 | a parse fails iff the entry of some tagged line fails; otherwise it has one value per tagged line, in order, and that value is the line's entry |
| ObjParser.RecordsSucceed | obj_parser.py:47-77 | the parse succeeds iff every tagged line's entry does |
| ObjParser.RecordsValues | obj_parser.py:47-77 | a successful parse holds exactly the entries of the tagged lines, in order |
| ObjParser.RecordsFailureSticks | obj_parser.py:47-77 | once an entry has failed, reading more lines cannot recover |
| ObjParser.ParseRecords | obj_parser.py:47-77 | the shared for/append loop computes Records, the specification above |
| ObjParser.Reprs | obj_parser.py:52 | map(str, map(float, parts)) fails iff some token fails, and otherwise has one text per token |
| ObjParser.FieldsCount | obj_parser.py:52 | a v, vn or vt entry has as many comma-separated fields as the line has tokens after its tag |
| ObjParser.FaceIndices | obj_parser.py:60 | a face has one index per token, each int(token before the first '/') - 1; it fails iff some token does not read as an integer |
| ObjParser.ParseVertices | obj_parser.py:47-53 | computes Records(lines, "v ", float entry) |
| ObjParser.ParseFaces | obj_parser.py:55-61 | computes Records(lines, "f ", FaceIndices) |
| ObjParser.ParseNormals | obj_parser.py:63-69 | computes Records(lines, "vn ", float entry) |
| ObjParser.ParseTextureCoords | obj_parser.py:71-77 | computes Records(lines, "vt ", float entry) |
| ObjParser.ParseObj | obj_parser.py:80-86 | the four parses run on one and the same stripped, split line list |
| ObjParser.ObjCounts | obj_parser.py:80-86 | one vertex per "v " line, one face per "f " line with one index per token after f, one normal per "vn " line and one texture coordinate per "vt " line |
| ObjParser.ArrayStatementStart | obj_parser.py:92-101 | each printed statement starts "this.<name> = new <type>([" |
| ObjParser.AssignsOwn | obj_parser.py:92-101 | a statement assigns its own field |
| ObjParser.AssignsOther | obj_parser.py:92-101 | a statement does not assign a field whose name starts with another letter |
| ObjParser.StatementsShape | obj_parser.py:92-101 | vertices are printed first and indices second, always; normals are printed iff there are any, and texture coordinates iff there are any |
| ObjData.EmbeddedLines | obj_parser.py:2-44 | input_data.strip().splitlines() is exactly the 41 record lines, in order |
| ObjData.LineTag | obj_parser.py:50 | a record line starts with tag + " " iff its first token is the tag |
| ObjData.TaggedLines | obj_parser.py:49-50 | the tagged lines of record lines are the lines of the records with that first token |
| ObjData.SectionsOf | obj_parser.py:2-44 | in the v, vn, vt, s, f layout each tag selects exactly its own section |
| ObjData.EmbeddedTagged | obj_parser.py:2-44 | on the embedded data each tag selects exactly its own section's lines |
| ObjData.ReadsVertexDigit | obj_parser.py:60 | "d/..." with digit d in 1..9 reads back as d |
| ObjData.FaceLineOf | obj_parser.py:58-60 | each f line of the cube parses to its three zero-based indices |
| ObjData.FaceRecordsOf | obj_parser.py:55-61 | f lines whose records match the given indices parse to exactly those indices |
| ObjData.FaceIndicesInRange | obj_parser.py:28-43 | the cube has 12 faces of 3 indices each, all in [0, 7] |
| ObjData.FloatRecords | obj_parser.py:47-77 | a v, vn or vt parse succeeds iff `float` accepts every argument of every tagged line, and then gives one entry per tagged line |
| ObjData.EmbeddedFloats | obj_parser.py:2-44 | when `float` accepts the 13 numbers written in input_data, its v, vn and vt lines parse into 8, 6 and 14 entries |
| ObjData.EmbeddedFaces | obj_parser.py:2-44 | the faces of the embedded data are exactly the 12 listed triangles |
| ObjData.EmbeddedData | obj_parser.py:80-89 | when `float` accepts the 13 numbers written in input_data, parse_obj(input_data) gives 8 vertices, 12 faces of 3 indices each in [0, 7], 6 normals and 14 texture coordinates |
| ObjData.EmbeddedDataNeedsNumbers | obj_parser.py:80-89 | conversely, if parse_obj(input_data) succeeds then `float` accepts each of those 13 numbers |
| GridFloor.XLinesSegments | Floor.js:20-22 | the k-th segment of the first loop is (-size, 0, c_k) to (size, 0, c_k) |
| GridFloor.ZLinesSegments | Floor.js:25-27 | the k-th segment of the second loop is (c_k, 0, -size) to (c_k, 0, size) |
| GridFloor.CoordWithin | Floor.js:14-20 | for dimension > 0 the counter stays <= size for exactly k = 0..lines, and is never below -size |
| GridFloor.NegativeDimensionNoLines | Floor.js:14-20 | with a negative dimension neither loop runs |
| GridFloor.LoopCondition | Floor.js:20 | `i <= size` holds after k steps iff k < Runs: lines + 1 runs for dimension > 0, none for dimension < 0 |
| GridFloor.UpNormals | Floor.js:32-35 | count normals, each (0, 1, 0) |
| GridFloor.XLinesFlat | Floor.js:20-22 | every point of the first loop has y = 0 and x, z in [-size, size] |
| GridFloor.ZLinesFlat | Floor.js:25-27 | every point of the second loop has y = 0 and x, z in [-size, size] |
| GridFloor.GridShape | Floor.js:14-29 | the grid has 12 (lines + 1) numbers, all points flat within the square, and the x-parallel segments come first |
| GridFloor.PushXLines | Floor.js:20-22 | the first loop pushes exactly the x-parallel segments and runs Runs times |
| GridFloor.PushZLines | Floor.js:25-27 | the second loop pushes exactly the z-parallel segments and runs Runs times |
| GridFloor.PushNormals | Floor.js:32-35 | the normals loop pushes (0, 1, 0) once per vertex |
| GridFloor.Floor.GenerateGrid | Floor.js:13-39 | the vertices are the two loops' segments, with one up normal per vertex and colour (0.5, 0.5, 0.5, 1) |
| GridFloor.Floor.constructor | Floor.js:2-11 | stores dimension and lines, sets wireframe and generates the grid |
| GridFloor.NormalsMatchVertices | Floor.js:29-36 | normals and vertices have the same length, 12 (lines + 1) |
| Arena.IndexOf | game-development-with-three.js-book-codes-main/arena/arena.js:18 | the first occurrence of the separator, or the length |
| Arena.SplitOn | game-development-with-three.js-book-codes-main/arena/arena.js:18 | split never returns an empty list, and its pieces contain no separator |
| Arena.SplitJoin | game-development-with-three.js-book-codes-main/arena/arena.js:8-18 | splitting pieces free of the separator after joining them gives them back |
| Arena.JoinSplit | game-development-with-three.js-book-codes-main/arena/arena.js:18 | joining the pieces of a split gives the string back: split loses nothing |
| Arena.VoxelRanges | game-development-with-three.js-book-codes-main/arena/arena.js:21-26 | rows map to z in unit steps within [-ZSIZE/2 + 100, ZSIZE/2], and columns of a first-row-length row map to x within [-XSIZE/2 + 100, XSIZE/2] |
| Arena.RowSpawnsAreCells | game-development-with-three.js-book-codes-main/arena/arena.js:28-31 | a row's spawn points are exactly (x(j), 0, z(i)) for the columns j holding 'S' |
| Arena.RowSpawnCount | game-development-with-three.js-book-codes-main/arena/arena.js:28-31 | a row has as many spawn points as 'S' characters |
| Arena.RowBlocksAreCells | game-development-with-three.js-book-codes-main/arena/arena.js:32-36 | a row's wall boxes are exactly (x(j), 50, z(i)) for the columns j holding 'X' |
| Arena.GridSpawnsAreCells | game-development-with-three.js-book-codes-main/arena/arena.js:24-46 | the map's spawn points are exactly (x(j), 0, z(i)) for the cells (i, j) holding 'S' |
| Arena.GridBlocksAreCells | game-development-with-three.js-book-codes-main/arena/arena.js:24-46 | the map's wall boxes are exactly (x(j), 50, z(i)) for the cells (i, j) holding 'X' |
| Arena.Level.constructor | game-development-with-three.js-book-codes-main/arena/arena.js:18-22 | rows = map.split("\n"), ZSIZE = rows * 100, XSIZE = length of the first row * 100 |
| Arena.Level.AddVoxel | game-development-with-three.js-book-codes-main/arena/arena.js:24-40 | 'S' pushes (x, 0, z); 'X' builds a box at (x, 50, z); anything else does nothing |
| Arena.Level.AddRow | game-development-with-three.js-book-codes-main/arena/arena.js:43-45 | the column loop appends the row's spawn points and boxes, in column order |
| Arena.Level.Build | game-development-with-three.js-book-codes-main/arena/arena.js:42-46 | the nested loops append every spawn point and box in row-major order |
| Arena.MapRows | game-development-with-three.js-book-codes-main/arena/arena.js:8-18 | the map literal splits into its nine rows |
| Arena.MapRowSpawns | game-development-with-three.js-book-codes-main/arena/arena.js:8-16 | given ZSIZE 900 and XSIZE 800, rows 2, 4 and 6 hold one spawn each and the other rows none |
| Arena.EmbeddedSpawns | game-development-with-three.js-book-codes-main/arena/arena.js:8-46 | ZSIZE = 900, XSIZE = 800, and the spawn points are (0,0,-150), (100,0,50), (300,0,250), in that order |
| Arena.WidthFromFirstRowOnly | game-development-with-three.js-book-codes-main/arena/arena.js:22-26 | XSIZE comes from the first row: the ninth column of the fifth row lies at x = 500, beyond XSIZE / 2 |
| Arena.PlayerInput.constructor | game-development-with-three.js-book-codes-main/arena/arena.js:58-74 | no movement flag set and no jumps |
| Arena.PlayerInput.OnKeyDown | game-development-with-three.js-book-codes-main/arena/arena.js:58-74 | 38/87 set FORWARD, 37/65 LEFT, 40/83 BACKWARD, 39/68 RIGHT, 32 jumps; flags are never cleared and any other code changes nothing |
| GrayColors.ToHex | game-development-with-three.js-book-codes-main/chapter-2/city_scene/gray_scale_colors.js:27 | toString(16): lowercase digits, no leading zero, "0" for zero |
| GrayColors.HexRoundTrip | game-development-with-three.js-book-codes-main/chapter-2/city_scene/gray_scale_colors.js:27 | reading back what toString(16) wrote gives the number |
| GrayColors.HexLength | game-development-with-three.js-book-codes-main/chapter-2/city_scene/gray_scale_colors.js:27 | numbers in [16^(k-1), 16^k) get exactly k digits |
| GrayColors.TableEntries | game-development-with-three.js-book-codes-main/chapter-2/city_scene/gray_scale_colors.js:1-21 | 19 entries, each '#' and six uppercase digits with equal red, green and blue bytes |
| GrayColors.LowerLevels | game-development-with-three.js-book-codes-main/chapter-2/city_scene/gray_scale_colors.js:2-13 | entries 0 to 11 have levels 0x20 + 8k |
| GrayColors.UpperLevels | game-development-with-three.js-book-codes-main/chapter-2/city_scene/gray_scale_colors.js:14-20 | entries 12 to 18 have levels 0x28 + 8k: the step past 0x78 is 16 |
| GrayColors.TableLevels | game-development-with-three.js-book-codes-main/chapter-2/city_scene/gray_scale_colors.js:2-20 | the level of every entry, as one formula |
| GrayColors.TableIncreasing | game-development-with-three.js-book-codes-main/chapter-2/city_scene/gray_scale_colors.js:2-20 | the levels strictly increase along the table and 0x80 is absent |
| GrayColors.GrayValue | game-development-with-three.js-book-codes-main/chapter-2/city_scene/gray_scale_colors.js:25 | Math.random() * 0xFF \| 0 lies in [0, 254] and is the integer part of r * 255 |
| GrayColors.Grayscale | game-development-with-three.js-book-codes-main/chapter-2/city_scene/gray_scale_colors.js:26 | (v << 16) \| (v << 8) \| v equals v * 0x010101 and is below 2^24 |
| GrayColors.GrayscaleBytes | game-development-with-three.js-book-codes-main/chapter-2/city_scene/gray_scale_colors.js:26 | the red, green and blue bytes of the replicated gray all equal the level |
| GrayColors.GenerateRandomColorHex | game-development-with-three.js-book-codes-main/chapter-2/city_scene/gray_scale_colors.js:23-29 | '#' followed by at least one lowercase hex digit |
| GrayColors.ColorReadsBack | game-development-with-three.js-book-codes-main/chapter-2/city_scene/gray_scale_colors.js:25-27 | the digits read back as level * 0x010101 |
| GrayColors.ColorLength | game-development-with-three.js-book-codes-main/chapter-2/city_scene/gray_scale_colors.js:25-27 | the colour has six digits iff the level is >= 16; level 0 gives "#0", and levels 1 to 15 give five digits |
| GrayColors.ShortColorForDarkGrays | game-development-with-three.js-book-codes-main/chapter-2/city_scene/gray_scale_colors.js:25-27 | r = 0 gives "#0", and r = 0.05 gives a five-digit colour |
| GrayColors.PadSixValue | game-development-with-three.js-book-codes-main/chapter-2/city_scene/gray_scale_colors.js:24 | ("00000" + hex).slice(-6) keeps the value and the digits of a number of at most six digits |
| GrayColors.PaddedHex | game-development-with-three.js-book-codes-main/chapter-2/city_scene/gray_scale_colors.js:24 | any number below 2^24 pads to six lowercase digits worth the number |
| GrayColors.PaddedColorIsSixDigits | game-development-with-three.js-book-codes-main/chapter-2/city_scene/gray_scale_colors.js:24-27 | with the padding of line 24, the colour is '#' and always six lowercase digits worth level * 0x010101 |
| City.RandomNumber | game-development-with-three.js-book-codes-main/chapter-2/city_scene/city.js:4-6 | for r in [0, 1), the result is an integer in [min, max] |
| City.RandomNumberReachesAll | game-development-with-three.js-book-codes-main/chapter-2/city_scene/city.js:4-6 | every integer of [min, max] is drawn by some r in [0, 1): both ends are included |
| City.ColorIndexValid | game-development-with-three.js-book-codes-main/chapter-2/city_scene/city.js:18 | the drawn colour index is always a valid table index |
| City.GridOffset | game-development-with-three.js-book-codes-main/chapter-2/city_scene/city.js:20-21 | Math.floor(r * 200 - 100) * 4 is a multiple of 4 in [-400, 396] |
| City.BuildingRanges | game-development-with-three.js-book-codes-main/chapter-2/city_scene/city.js:18-24 | colour from the table; x and z multiples of 4 in [-400, 396] and y = 0; scale.x in [10, 60), scale.z = scale.x, scale.y in [8, 8 scale.x + 8) |
| City.Buildings | game-development-with-three.js-book-codes-main/chapter-2/city_scene/city.js:16-26 | n groups of five draws make n boxes, and box k is the building drawn from draws 5k to 5k + 4 |
| City.CityBoxesInRange | game-development-with-three.js-book-codes-main/chapter-2/city_scene/city.js:16-26 | every one of the 100 boxes the scene receives has a table colour, x and z multiples of 4 in [-400, 396] with y = 0, and the footprint and height ranges |
| City.CityCount | game-development-with-three.js-book-codes-main/chapter-2/city_scene/city.js:16-33 | exactly 100 boxes are added, then the floor plane |
| City.Scene.Add | game-development-with-three.js-book-codes-main/chapter-2/city_scene/city.js:25 | scene.add appends the object |
| City.AddCityScene | game-development-with-three.js-book-codes-main/chapter-2/city_scene/city.js:8-34 | the loop adds the 100 buildings drawn from consecutive groups of five draws, in order, then the 2000 x 2000 floor |

## Left out

- Rendering is not modelled: shaders, buffers, framebuffers, draw calls, render loops and `initBuffers`. It is GPU input and output.
- `gl.readPixels` and `getBoundingClientRect` are parameters of the picking method: an oracle from coordinates to a pixel, and a rectangle.
- Three.js raycasting is input:
  - `getIntersects` and `getPlaneIntersection` are optional hits;
  - `getWorldPosition` gives the world positions;
  - `updateMatrixWorld` is not modelled;
  - `rotateX/Y/Z` are recorded as turns appended to the target's log.
- `EventDispatcher` is not modelled; the dispatched `change` events are only counted.
- `console.log` and `preventDefault` have no effect on the state, so they are left out.
- `traverse` is modelled over a flat list of nodes, each with or without an emissive material. The Three.js object tree is not modelled.
- main.js calls methods that the files shown do not define. As written, these calls throw a TypeError:
  - `camera.right()` and `camera.forward()`: Camera.js defines only the constructor, `getViewMatrix`, `getProjectionMatrix`, `updateMouse` and `handleMouseWheel`. So main.js:203 throws on every left click, before `readPixels`, and `selectedObject` is never assigned. main.js:176 throws the same way before `translation[0] += dx`.
  - `drawable.drawPicking` (main.js:213) and `d.id()` (main.js:222): DrawableObject.js defines neither. Its `constructor(gl)` also drops the `id` that Floor.js:3 passes with `super(gl, id)`.
  - The model assumes the intended program: a camera whose `right()` and `forward()` have no effect, and drawables whose `id()` is the `pickId` they were built with. App.WebGLApp.HandlePicking, App.WebGLApp.MoveSelectedObject and App.FindDrawable state that behaviour.
- The view and projection matrices are not modelled: `getViewMatrix`, `getProjectionMatrix` and camera.js `updateViewMatrix`. They are trigonometric. The constructor never sets `this.viewMatrix`, so `this.viewMatrix.setLookAt` at camera.js:23 throws a TypeError. It does so at the end of every `updateOrbit` (camera.js:44), after the new yaw and pitch are stored. OrbitCamera.Camera.UpdateOrbit therefore stops at the pitch clamp.
- Floating point is not modelled: all numbers are exact reals. The Floor.js counter `i += step` therefore accumulates no rounding error, and the results are stated under exact arithmetic.
- GridFloor.Floor.constructor: the model requires `dimension != 0` and a whole `lines >= 1`.
  - With dimension 0 the step is 0, so the source loops forever.
  - With lines 0, JavaScript's step is Infinity, which exact reals cannot express.
  - The source's defaults (10, 10) are passed in as arguments.
- Python's `print` is modelled as the list of printed statements. The float texts come from the `repr` oracle, so their digits are not modelled.
- ObjParser.ParseInt: it accepts an optional sign and ASCII digits only, never whitespace. Python's `int` also accepts underscores between digits and non-ASCII decimal digits. No token of the embedded data uses either.
- ObjData.EmbeddedData: it requires the float oracle to accept the 13 numbers written in `input_data`, as Python's `float` does; ObjData.EmbeddedDataNeedsNumbers shows that nothing less will do. It states counts, not the printed float texts.
- ObjData.EmbeddedFloats: the same hypothesis on the 13 numbers; what the oracle does on any other string is left open.
- OrbitCamera.Camera.constructor: the default `target = [0, 0, 0]` of camera.js:2 is not modelled as a default; callers pass the target, `Origin` for the default.
- arena.js:
  - `Math.random()` for the box colour is not modelled, and neither is the geometry of the boxes (which are never added to the scene).
  - As written, the module stops at arena.js:50. player.js:3 defines `Player` as an arrow function, so `new Player()` throws a TypeError. The map loop at arena.js:42-46 has already run by then, but the `mousemove` and `keydown` listeners at arena.js:54-74 are never registered.
  - Arena.PlayerInput.OnKeyDown assumes the intended program: a constructible Player, with the keydown listener registered.
  - The Player class and its `rotate` and `jump` physics (player.js) are not modelled. `jump()` is counted.
  - The mousemove listener is left out, because it only calls `player.rotate`.
- city.js: geometries, materials and the box matrix are not modelled. Colours are kept as the table's strings. `scene.add` is appended to a list.
- TShapes.InitialParts: each of the four boxes gets its own copy of the emissive state. TShape.js:40 and TShape.js:49 give the one `material` object to all four boxes, and a caller may share it between pieces too. Painting one box therefore paints them all, and other pieces with the same material. The model does not capture that aliasing. Painted always paints every box of a piece, so within one piece the results agree.
- TransformControls.js: ring geometry and colours are not modelled; only each ring's `userData.axis` is. The `camera` argument of `handleMouseMove` is unused by the source.
- Gizmo.TransformControls.HandleMouseDown: a hit's `userData.axis` is an optional string, and only the empty string and a missing value are falsy. Other falsy JavaScript values are not modelled.

## Findings

| source | as written | input that shows it | evidently intended | confidence | as-written member | corrected member |
|---|---|---|---|---|---|---|
| game-development-with-three.js-book-codes-main/chapter-2/city_scene/gray_scale_colors.js:27 | `'#' + grayscale.toString(16)` writes no leading zeros | `Math.random()` returning 0 gives "#0"; 0.05 gives level 12 and "#c0c0c", five digits | a six-digit `#rrggbb` colour: the digits padded with zeros as on line 24 | not executed | GrayColors.ShortColorForDarkGrays | GrayColors.PaddedColorIsSixDigits |

# web-cad in Dafny

web-cad is a small WebGL editor for 2D shapes. This project models its shape geometry and bookkeeping layer and proves properties of that model.

Each shape (`Rectangle`, `Square`, `Polygon`) keeps a few parameters: a centre `position`, a width and height or side count, and an angle in degrees. Its setters rebuild the list of `vertices` from those parameters and keep one RGBA colour per vertex. The `Webcad` editor owns:
- the id counter `lastId`;
- the object list;
- the selected id;
- `render`, which packs every object into one vertex buffer with parallel colour and hit-colour buffers and one `{index, count}` draw range per object.

Save and load turn the object list into JSON records and back. Two hex-colour parsers are modelled: `hexToRgb` and `toGLSL`. So are the early click-driven drafts: the two-click square, the click-counting polygon, and the two line classes.

## Modules

| file | module | models |
|---|---|---|
| `wrappers.dfy` | `Wrappers` | `Option`, the JavaScript exception classes, and the normal-or-thrown outcome of an operation |
| `utils.dfy` | `Utils` | `src/utils.js`: `rotate`, `hexToRgb` and `flatten`, plus the device-coordinate and colour mappings and the first-match vertex search the shapes share |
| `rectangle.dfy` | `RectangleShape` | `src/shapes/Rectangle.js` |
| `square.dfy` | `SquareShape` | `src/shapes/Square.js` |
| `polygon.dfy` | `PolygonShape` | `src/shapes/Polygon.js` |
| `webcad_draft.dfy` | `WebcadDraft` | the first `Square`, declared in `src/webcad.js` |
| `webcad.dfy` | `Scene` | `src/webcad.js`: the `Webcad` state, `render`, `addObject`, and the cursor and square click handlers |
| `saveload.dfy` | `SaveLoad` | `src/saveload.js` |
| `square_draft.dfy` | `SquareDraft` | `src/square.js`, including the click state that `src/shapes/Line.js` shares |
| `line_shape.dfy` | `LineTool` | `src/shapes/Line.js` (`toGLSL`, `Line`, `drawLine`) and the `CurrentState` list of `src/app.js` |
| `flat_line.dfy` | `FlatLine` | `src/line.js` |
| `polygon_draft.dfy` | `PolygonDraft` | `src/polygon.js` |

## Modelling choices

**Numbers and host functions**
- Coordinates are `real`.
- `Math.cos`, `Math.sin` and `Math.sqrt`, and the conversion of input text to numbers, belong to the JavaScript host. They are fields of a `Host` value that the shapes hold. Lemmas about rotation state the facts they need as preconditions: exact values at angle 0, or that rotating by −a undoes rotating by a.

**Shapes and arrays**
- Shapes are classes with the source's fields.
- A JavaScript array that a method writes index by index is modelled as `Overwrite(old, written)`: the entries written replace the front, and any later entries stay.
- `Rectangle` stores width and height as a JavaScript value, a number or a string. This is because its sidebar passes the input's string, which `+` then concatenates.

**Editor and load**
- An editor object is a `ShapeObject`, one constructor per shape class.
- `render` is specified by functions of the objects' `getVertices` results.
- A load rebuilds every record with its class's constructor, then copies the saved fields.
- The table `shapeTypes` that load indexes by a record's `type` is not defined in any of the files modelled. It is taken to map `"rectangle"`, `"square"` and `"polygon"` to the three shape classes. Any other type (a draft square has none) throws the TypeError of calling a non-constructor.

**Drafts**
- The globals `first`, `p1` and `p2` of `src/square.js` are one `Clicks` object. Both the square draft and the line tool's `drawLine` take it.
- The draw calls of the drafts are returned as `DrawCall` values: mode, vertices, colours and count.

## Model

| member | source | states |
|---|---|---|
| Utils.RotateAtZero | src/utils.js:8-14 | rotate by 0 degrees returns the input point, given cos 0 = 1 and sin 0 = 0 |
| Utils.TurnUndone | src/utils.js:12-13 | the rotation map followed by the map of the conjugate (cos, −sin) pair gives back the point |
| Utils.RotateUndone | src/utils.js:8-14 | rotating by −angle after rotating by angle returns the original point when the host's pair for −angle is the conjugate |
| Utils.TurnAdds | src/utils.js:12-13 | the rotation is linear: the image of a sum is the sum of the images |
| Utils.JsRemainderBounds | src/shapes/Square.js:104 | JavaScript `a % m` keeps the sign of a, has magnitude below m, and differs from a by m times the truncated quotient |
| Utils.PairValue | src/utils.js:99-101 | a two-digit hex pair parses to a value below 256 |
| Utils.HexToRgb | src/utils.js:96-103 | returns a colour exactly for six hex digits with an optional leading `#`, else null; every channel lies in 0..255 |
| Utils.HexToRgbPairs | src/utils.js:98-101 | an accepted input ends in six hex digits, and each channel is 16·hi + lo of its own pair among them, in order r, g, b, whether or not a `#` comes first |
| Utils.UpperHexDigit | src/utils.js:97 | upper-casing keeps a hex digit a hex digit, with the same value |
| Utils.HexToRgbIgnoresCase | src/utils.js:97 | the `i` flag: upper-casing the input never changes the result |
| Utils.HexToRgbHashOptional | src/utils.js:97 | six digits parse the same with or without the `#` |
| Utils.HexToRgbExamples | src/utils.js:96-103 | `abcdef`, `#abcdef` and `#ABCDEF` give (171, 205, 239); five digits, a non-hex digit or a doubled `#` give null |
| Utils.DigitChar | src/utils.js:99-101 | the hex digit written for 0..15 reads back as that value |
| Utils.PairText | src/utils.js:99-101 | the two-digit text of 0..255 parses back to that value |
| Utils.HexToRgbRoundTrip | src/utils.js:96-103 | writing r, g, b in 0..255 as `#rrggbb` and parsing it returns r, g, b |
| Utils.ConcatLength | src/utils.js:68-81 | rows all of length k flatten to rows×k numbers |
| Utils.ConcatAt | src/utils.js:74-81 | with rows all of length k, entry j of row i lands at `result[i*k+j]` |
| Utils.Flatten | src/utils.js:63-89 | the length is rows × first-row length, or the list's length; a flat list is copied as is; uniform rows give their concatenation |
| Utils.ClickToDevice | src/square.js:23-27 | a click at canvas pixel (x, y) maps to the device point from which x and y are recovered: x = (p.x + 1)·width/2 and y = height − (p.y + 1)·height/2 (the same formula in src/shapes/Line.js:13-18 and src/polygon.js:27-34) |
| Utils.DeviceCoords | src/shapes/Rectangle.js:99-106 | the flattened device coordinates hold 2 numbers per vertex |
| Utils.DeviceCoordsAt | src/shapes/Rectangle.js:99-106 | vertex k sits at entries 2k and 2k+1 as −1 + 2x/width and −1 + 2y/height |
| Utils.DeviceColors | src/shapes/Rectangle.js:108-112 | 4 numbers per colour, channel c of colour k at 4k + c divided by 255 |
| Utils.ClickToDeviceCorners | src/square.js:23-27 | the click mapping with the y flip sends the canvas corners to (−1, 1) and (1, −1), the top row to y = 1 and the bottom row to y = −1 |
| Utils.Overwrite | src/shapes/Rectangle.js:61-64 | after index writes 0..n−1 the array starts with the written entries and keeps its later entries |
| Utils.SetAt | src/shapes/Rectangle.js:61 | one index write replaces that entry or appends at the end, and nothing else changes |
| Utils.OverwriteStep | src/shapes/Rectangle.js:61-64 | one more index write extends the written front by that entry |
| Utils.OverwriteFour | src/shapes/Rectangle.js:61-64 | the four writes `a[0]..a[3]` in order are `Overwrite` with the four entries |
| Utils.OverwriteTwice | src/shapes/Rectangle.js:57-65 | recalculating writes over the previous writes: only the latest remain |
| Utils.Repeat | src/shapes/Rectangle.js:26-39 | n copies of one entry |
| Utils.FindVertex | src/shapes/Rectangle.js:238-246 | the first index within tolerance on both axes; null exactly when no vertex is within tolerance |
| Utils.FlattenVertices | src/shapes/Rectangle.js:99-106 | getVertices' map and flatten compute `DeviceCoords` |
| Utils.FlattenColors | src/shapes/Rectangle.js:108-112 | getVerticesColors' map and flatten compute `DeviceColors` |
| RectangleShape.Plus | src/shapes/Rectangle.js:125-126 | adding to a number adds; adding to a string appends text after it |
| RectangleShape.Corners | src/shapes/Rectangle.js:57-65 | four corners TL, TR, BL, BR: opposite corners have the centre as midpoint, rows differ by w and columns by h |
| RectangleShape.CornersShift | src/shapes/Rectangle.js:95-97 | moving the centre by d moves every corner by exactly d |
| RectangleShape.MoveVertexAnchors | src/shapes/Rectangle.js:118-128 | after a hit, vertex 1 moves by exactly (dx, dy) and vertex 2 stays where it was |
| RectangleShape.DragCorners | src/shapes/Rectangle.js:211-221 | the creation drag makes the press point and the cursor opposite corners |
| RectangleShape.Rectangle.constructor | src/shapes/Rectangle.js:51-55 | the Shape fields with type "rectangle", zero geometry, four zero vertices and four copies of the default colour; the rectangle starts `Valid`: 4 vertices at the corners of its fields and 4 colours |
| RectangleShape.Rectangle.RecalculateVertices | src/shapes/Rectangle.js:57-65 | entries 0..3 become the corners of the current fields |
| RectangleShape.Rectangle.SetPosition | src/shapes/Rectangle.js:68-73 | only the position changes, then the vertices follow it; `Valid` is kept |
| RectangleShape.Rectangle.SetAngle | src/shape.js:56-58 | the inherited stub changes nothing |
| RectangleShape.Rectangle.SetWidth | src/shapes/Rectangle.js:76-80 | only the width changes, then the vertices follow it |
| RectangleShape.Rectangle.SetHeight | src/shapes/Rectangle.js:82-86 | only the height changes, then the vertices follow it |
| RectangleShape.Rectangle.SetAllVertexColor | src/shapes/Rectangle.js:88-93 | colours 0..3 become `[r, g, b, 255]`, so a list of at most 4 becomes exactly 4 copies; a malformed hex throws a TypeError and leaves the colours; `Valid` is kept |
| RectangleShape.Rectangle.Translate | src/shapes/Rectangle.js:95-97 | the position moves by (dx, dy) and the vertices follow it; size and colours are untouched; on a `Valid` rectangle every vertex moves by exactly (dx, dy) |
| RectangleShape.Rectangle.GetVertices | src/shapes/Rectangle.js:99-106 | the device coordinates of the vertices |
| RectangleShape.Rectangle.GetVerticesColors | src/shapes/Rectangle.js:108-112 | the colours divided by 255 |
| RectangleShape.Rectangle.GetVertexIdx | src/shapes/Rectangle.js:238-246 | the first vertex within tolerance on both axes, else null |
| RectangleShape.Rectangle.MoveVertex | src/shapes/Rectangle.js:118-128 | a miss changes nothing; a hit adds dx to width and dy to height, moves the centre by half of that, and recomputes the vertices; on a `Valid` rectangle with numeric sizes, vertex 1 moves by exactly (dx, dy) and vertex 2 stays |
| RectangleShape.Rectangle.OnWidthInput | src/shapes/Rectangle.js:139-141 | the sidebar stores the input's string as the width |
| RectangleShape.Rectangle.OnHeightInput | src/shapes/Rectangle.js:146-148 | the sidebar stores the input's string as the height |
| RectangleShape.Rectangle.Drag | src/shapes/Rectangle.js:211-221 | width \|dx\|, height \|dy\|, centre at the midpoint of press and cursor |
| SquareShape.Placed | src/shapes/Square.js:57-75 | recalculateVertices always leaves exactly 4 vertices |
| SquareShape.PlacedAtZero | src/shapes/Square.js:57-75 | at angle 0 the corners are (x ∓ w/2, y ± w/2) in order TL, TR, BL, BR |
| SquareShape.PlacedCentred | src/shapes/Square.js:64-75 | at every angle, corners 0 and 3, and 1 and 2, are symmetric about the centre |
| SquareShape.NormalizeUndoes | src/shapes/Square.js:81-93 | normalize returns each corner's unrotated offset (±w/2, ±w/2), given that rotating by −a undoes rotating by a |
| SquareShape.MoveKeepsOpposite | src/shapes/Square.js:159-170 | growing the width by p and moving the centre half of p toward corner k leaves corner 3 − k in place |
| SquareShape.MoveVertexKeepsOpposite | src/shapes/Square.js:146-171 | on a square as recalculateVertices left it, a vertex drag keeps the corner opposite the grabbed one fixed, for every projection |
| SquareShape.PressIsCorner | src/shapes/Square.js:258-264 | the creation drag's centre has the press point as one of its four unrotated corners |
| SquareShape.Square.Normalized | src/shapes/Square.js:81-93 | one normalised point per vertex |
| SquareShape.PlacedZeroWidth | src/shapes/Square.js:57-75 | a square of width 0 has its four corners at the centre, whatever the angle |
| SquareShape.Square.constructor | src/shapes/Square.js:51-55 | the Shape fields with type "square", zero geometry, four zero vertices and four copies of the default colour; the square starts `Valid`: its vertices are the rotated corners of its fields, with 4 colours |
| SquareShape.Square.RecalculateVertices | src/shapes/Square.js:57-76 | the vertices become the rotated corners of the current fields |
| SquareShape.Square.Normalize | src/shapes/Square.js:81-93 | every vertex moved to the origin and rotated back by the angle |
| SquareShape.Square.SetPosition | src/shapes/Square.js:96-101 | only the position changes, then the vertices follow it; `Valid` is kept |
| SquareShape.Square.SetAngle | src/shapes/Square.js:103-107 | stores `angle % 360`, which keeps the input's sign and stays below 360 in magnitude; the vertices follow it |
| SquareShape.Square.SetWidth | src/shapes/Square.js:110-114 | only the width changes, then the vertices follow it |
| SquareShape.Square.SetAllVertexColor | src/shapes/Square.js:116-121 | colours 0..3 become `[r, g, b, 255]`, so a list of at most 4 (as in every `Valid` square) becomes exactly 4 copies; a malformed hex throws a TypeError and leaves the colours; `Valid` is kept |
| SquareShape.Square.Translate | src/shapes/Square.js:123-125 | only the position changes, by (dx, dy); width, angle and colours stay; on a `Valid` square every vertex moves by exactly (dx, dy) |
| SquareShape.Square.GetVertices | src/shapes/Square.js:127-134 | the device coordinates of the vertices |
| SquareShape.Square.GetVerticesColors | src/shapes/Square.js:136-140 | the colours divided by 255 |
| SquareShape.Square.GetVertexIdx | src/shapes/Square.js:281-291 | the query point in the square's own frame is matched against the normalised corners: first match, else null |
| SquareShape.Square.MoveVertex | src/shapes/Square.js:146-171 | a miss changes nothing; a hit is on the first normalised corner near the query point, grows the width by the projection of the rotated drag and moves the centre half of it toward that corner; `Valid` is kept |
| SquareShape.DragWidth | src/shapes/Square.js:258-260 | the creation drag's width is the larger of the horizontal and vertical spans |
| SquareShape.DragPressIsCorner | src/shapes/Square.js:258-264 | the press point is one of the corners of the square the creation drag describes |
| SquareShape.Square.Drag | src/shapes/Square.js:258-264 | width max(\|dx\|, \|dy\|), centre half of it from the press point toward the cursor, the press point one of the corners |
| PolygonShape.Rim | src/shapes/Polygon.js:68-73 | the first loop writes one point per side |
| PolygonShape.Outline | src/shapes/Polygon.js:64-84 | recalculateVertices leaves exactly `sides` vertices |
| PolygonShape.OutlineAtZero | src/shapes/Polygon.js:64-84 | at angle 0 the outline is the unrotated rim |
| PolygonShape.Popped | src/shapes/Polygon.js:120-123 | k pops remove entries only from the end, and popping an empty list leaves it empty |
| PolygonShape.SidesGuard | src/shapes/Polygon.js:180-187 | the sidebar uses the parsed value exactly when it is a number of at least 3 |
| PolygonShape.NewDefaultSides | src/shapes/Polygon.js:261-268 | the create-time input changes the default only to a parsed value of at least 3 |
| PolygonShape.GetAngleClockwise | src/shapes/Polygon.js:397-403 | getAngle is negative exactly for a clockwise turn |
| PolygonShape.GetDistanceMetric | src/shapes/Polygon.js:405-409 | the squared distance is symmetric and never negative |
| PolygonShape.Pick | src/shapes/Polygon.js:378-387 | the inner loop picks an index of the input |
| PolygonShape.NextIndex | src/shapes/Polygon.js:375-387 | the walk's next point is an index of the input |
| PolygonShape.LeftFrom | src/shapes/Polygon.js:363-367 | the leftmost loop picks an index of the input |
| PolygonShape.Leftmost | src/shapes/Polygon.js:361-367 | the leftmost loop picks an index of the input |
| PolygonShape.LeftFromFirstMinimal | src/shapes/Polygon.js:363-367 | continuing the leftmost loop keeps the first point of smallest x |
| PolygonShape.LeftmostFirstMinimal | src/shapes/Polygon.js:361-367 | the leftmost loop finds the first point of smallest x |
| PolygonShape.WalkFromInput | src/shapes/Polygon.js:374-392 | the walk pushes at least one point, only input points, and ends at the leftmost point when it comes back |
| PolygonShape.ConvexHullShape | src/shapes/Polygon.js:355-395 | null exactly for fewer than 3 points; otherwise the hull starts with the first leftmost point, holds only input points, and ends with the leftmost point again when the walk returns |
| PolygonShape.CallReached | src/shapes/Polygon.js:378-383 | the inner loop starts at index 1 and skips only the current point, so with 3 or more points some candidate reaches the unqualified `getAngle` |
| PolygonShape.ConvexHullAsWritten | src/shapes/Polygon.js:355-395 | as written: null for fewer than 3 points, a ReferenceError otherwise |
| PolygonShape.ConvexHull | src/shapes/Polygon.js:355-395 | the loops compute the gift-wrapping walk `ConvexHullOf` |
| PolygonShape.Polygon.constructor | src/shapes/Polygon.js:58-62 | the Shape fields with type "polygon", `defaultSides` sides, the outline as vertices, and one default colour per side; the polygon starts `Valid` |
| PolygonShape.Polygon.RecalculateVertices | src/shapes/Polygon.js:64-84 | writes the rim, cuts the list to `sides` and rotates: the vertices become the outline |
| PolygonShape.Polygon.SetAngle | src/shapes/Polygon.js:86-90 | stores `angle % 360` with the input's sign and magnitude below 360; the vertices follow it |
| PolygonShape.Polygon.SetPosition | src/shapes/Polygon.js:93-98 | only the position changes, then the vertices follow it; `Valid` is kept |
| PolygonShape.Polygon.SetWidth | src/shapes/Polygon.js:101-105 | only the width changes, then the vertices follow it |
| PolygonShape.Polygon.SetHeight | src/shapes/Polygon.js:107-111 | only the height changes, then the vertices follow it |
| PolygonShape.Polygon.SetSides | src/shapes/Polygon.js:113-127 | growing appends one default colour per new side after the unchanged entries, or throws first on a bad default; shrinking pops from the end; afterwards sides == n, there are n vertices, and n colours when the counts agreed before |
| PolygonShape.Polygon.SetAllVertexColor | src/shapes/Polygon.js:129-134 | the first `sides` colours become `[r, g, b, 255]`, so a list of at most `sides` becomes exactly `sides` copies; a malformed hex throws when there is a side to write; `Valid` is kept |
| PolygonShape.Polygon.Translate | src/shapes/Polygon.js:136-138 | only the position changes, by (dx, dy); on a `Valid` polygon every vertex moves by exactly (dx, dy) |
| PolygonShape.Polygon.GetVertices | src/shapes/Polygon.js:140-147 | the device coordinates of the vertices |
| PolygonShape.Polygon.GetVerticesColors | src/shapes/Polygon.js:149-153 | the colours divided by 255 |
| PolygonShape.Polygon.GetVertexIdx | src/shapes/Polygon.js:333-341 | the first vertex within tolerance on both axes, else null |
| PolygonShape.Polygon.MoveVertex | src/shapes/Polygon.js:159-169 | a miss changes nothing; a hit adds dx to width and dy to height and moves the centre by (dx/2, dy/2); `Valid` is kept |
| PolygonShape.Polygon.OnSidesInput | src/shapes/Polygon.js:180-187 | setSides runs only for a parsed integer n of at least 3; anything else leaves the polygon as it was; growing to n appends one default colour per new side, or throws on a bad default before any change; shrinking pops colours from the end; afterwards sides == n, the vertices are the outline, and n colours when the counts agreed before |
| PolygonShape.Polygon.ToConvexHullPolygon | src/shapes/Polygon.js:346-353 | as written: fewer than 3 vertices return normally, any other polygon throws the ReferenceError of the hull's unbound `getAngle`; the vertices never change |
| PolygonShape.Polygon.ToConvexHullPolygonIntended | src/shapes/Polygon.js:346-353 | over the corrected hull: the vertices become the closed hull, which has at least 2 points and ends with its first point, while colours and sides stay; a `Valid` polygon whose hull length differs from its side count is no longer `Valid`; no hull or an unclosed walk changes nothing |
| PolygonShape.Polygon.Drag | src/shapes/Polygon.js:307-316 | width \|dx\|, height \|dy\|, centre at the midpoint of press and cursor |
| WebcadDraft.SquareCornersAtZero | src/webcad.js:298-306 | the draft square's corners are those of the rotating square at angle 0 |
| WebcadDraft.DraftSquare.constructor | src/webcad.js:294-296 | id and back-reference stored, zero position and width, four zero vertices |
| WebcadDraft.DraftSquare.RecalculateVertices | src/webcad.js:298-306 | entries 0..3 become (x ∓ w/2, y ± w/2) in order TL, TR, BL, BR |
| WebcadDraft.DraftSquare.SetPosition | src/webcad.js:309-314 | only the position changes, then the vertices follow it |
| WebcadDraft.DraftSquare.SetWidth | src/webcad.js:317-321 | only the width changes, then the vertices follow it |
| WebcadDraft.DraftSquare.GetVertices | src/webcad.js:323-330 | the device coordinates of the vertices |
| Scene.DrawModes | src/webcad.js:149-158 | `getDrawingMode` over the classes (src/shapes/Rectangle.js:114-116, src/shapes/Square.js:142-144, src/shapes/Polygon.js:155-157, src/webcad.js:332-334): a polygon is drawn as a triangle fan, every other object as a triangle strip |
| Scene.Times | src/webcad.js:163-170 | n pushes of a four-number colour add 4n numbers |
| Scene.RenderListEntries | src/webcad.js:149-158 | one renderList entry per object, in order, with its id, mode, count = length/2 and index = earlier vertices/2 |
| Scene.RenderListTiles | src/webcad.js:152-162 | the draw ranges tile the vertex buffer: the first starts at 0, each starts where the previous ends, and the last ends at the buffer's end |
| Scene.ColorsTwiceVertices | src/webcad.js:160-170 | with whole vertices, colours and hit colours are each twice as long as the vertex buffer |
| Scene.ViewWhole | src/webcad.js:150 | every shape's getVertices has an even length |
| Scene.ViewsWhole | src/webcad.js:149-150 | every object's coordinate list holds whole vertices |
| Scene.TimesAt | src/webcad.js:163-170 | push j of a repeated colour sits at entries 4j..4j+3 |
| Scene.ColorsAppend | src/webcad.js:149-171 | the colour buffer of two runs of objects is the two buffers concatenated |
| Scene.HitColorsAppend | src/webcad.js:149-171 | the same for the hit-colour buffer |
| Scene.ColorsAround | src/webcad.js:149-171 | the colour buffer is the objects before one object, that object's pushes, then the objects after it |
| Scene.HitColorsAround | src/webcad.js:149-171 | the same for the hit-colour buffer |
| Scene.ColorRunAt | src/webcad.js:163-168 | push j of one object's colours sits 4j numbers after the colours of the objects before it |
| Scene.HitRunAt | src/webcad.js:169 | the same for the hit colours |
| Scene.VertexColor | src/webcad.js:163-168 | vertex j of object k is coloured (1, 0, 0, 1) when its id is the selected id, else (1, 1, 0, 1) |
| Scene.VertexHitColor | src/webcad.js:169 | vertex j of object k has hit colour (0, 0, id/255, 1) |
| Scene.ChannelByte | src/webcad.js:15-18 | a colour channel reads back as a byte in 0..255 |
| Scene.PickRoundTrip | src/webcad.js:16-18 | the blue byte under an object is its id for ids 0..255; larger ids all read back as 255 |
| Scene.GetVertices | src/webcad.js:150 | the dispatched getVertices returns the object's view coordinates |
| Scene.PushAll | src/webcad.js:160-162 | pushing each value appends the list |
| Scene.PushTints | src/webcad.js:163-170 | the loop to count = n/2 appends the tint and the hit tint (n+1)/2 times |
| Scene.RenderViews | src/webcad.js:144-171 | the buffer-building loop computes `RenderList`, `AllVertices`, `AllColors` and `AllHitColors` |
| Scene.Webcad.constructor | src/webcad.js:33-47 | lastId 1, no objects, no selection |
| Scene.Webcad.Render | src/webcad.js:142-171 | render's buffers are the spec functions of the objects' views |
| Scene.Webcad.AddObject | src/webcad.js:200-204 | appends at the end; earlier objects keep their places |
| Scene.Webcad.OnCursorClick | src/webcad.js:10-20 | the blue byte becomes the selected id; the hit colour of an id in 0..255 selects that id |
| Scene.Webcad.OnSquareClick | src/webcad.js:23-28 | a fresh square with the old lastId, lastId one higher, centred at the flipped click with width 150, appended |
| Scene.TwoSquareClicks | src/webcad.js:23-35 | two clicks on a fresh editor give ids 1 and 2 and leave lastId at 3 |
| SaveLoad.SetBackReference | src/saveload.js:10 | setting or deleting `webcad` changes nothing that is saved |
| SaveLoad.SetBackReferences | src/saveload.js:12 | every object's back-reference is set, and nothing saved changes |
| SaveLoad.Save | src/saveload.js:6-25 | the records are those of the list as it was; the list is unchanged and every object points back at the editor |
| SaveLoad.MaxId | src/saveload.js:75-82 | the running lastId is at least 1 and at least every id |
| SaveLoad.MaxIdAttained | src/saveload.js:75-82 | the running lastId is 1 or one of the ids |
| SaveLoad.MaxIdStep | src/saveload.js:81 | one step of the loop takes the larger of the id and the running value |
| SaveLoad.RestoredId | src/saveload.js:77-78 | a rebuilt object has its record's id |
| SaveLoad.RebuildRectangle | src/saveload.js:77-78 | a fresh Rectangle carrying every saved field and the editor as back-reference |
| SaveLoad.RebuildSquare | src/saveload.js:77-78 | a fresh Square carrying every saved field and the editor as back-reference |
| SaveLoad.RebuildPolygon | src/saveload.js:77-78 | a fresh Polygon carrying every saved field and the editor as back-reference |
| SaveLoad.Rebuild | src/saveload.js:77-78 | a record of a known type gives a fresh object restored from it; other types throw |
| SaveLoad.PushRebuilt | src/saveload.js:76-82 | one pass of the loop throws exactly for a record of no known type; otherwise it appends one fresh object restored from the record and keeps the earlier ones restored |
| SaveLoad.RebuildAll | src/saveload.js:71-82 | every record rebuilt in order with lastId the maximum id, or a throw when some record has no known type |
| SaveLoad.OnLoad | src/saveload.js:70-87 | a load either throws and leaves list and lastId as they were, or replaces the list by the rebuilt records and sets lastId to max(1, ids) + 1, which exceeds every id and is at least 2 |
| SaveLoad.FileUploaded | src/saveload.js:56-91 | no file changes nothing; text JSON.parse rejects throws a SyntaxError and changes nothing; otherwise the load: it returns normally exactly when every record has a known type; a throw is the TypeError of a non-constructor and changes nothing; a normal load leaves one fresh object per record, each restored from its record, and lastId past every id |
| SaveLoad.Load | src/saveload.js:30-50 | declining the confirmation changes nothing; confirming with no file changes nothing; a file JSON.parse rejects throws a SyntaxError and changes nothing; a parsed file gives the same outcome and state as `FileUploaded` |
| SquareDraft.Clicks.constructor | src/square.js:3-5 | the first click of a pair comes next and no corner is stored |
| SquareDraft.BoxIsRectangle | src/square.js:29-34 | the strip is the axis-aligned box with p1 and p2 as opposite corners, in the rectangle's TL, TR, BL, BR order |
| SquareDraft.BoxReversed | src/square.js:29-34 | clicking the corners in the other order gives the same strip backwards |
| SquareDraft.DrawSquare | src/square.js:13-72 | clicks alternate: the first stores p1; the second stores p2 and draws the box as a 4-vertex strip with the 4 fixed colours, count = vertices.length |
| SquareDraft.TwoClicks | src/square.js:20-41 | clicking the top-left and then the bottom-right canvas corner draws the whole device square; the third click draws nothing |
| LineTool.Expand | src/shapes/Line.js:89-91 | the short form with each digit doubled |
| LineTool.Digits | src/shapes/Line.js:88-91 | the six hex digits joined after `0x` |
| LineTool.HexNumberStep | src/shapes/Line.js:92 | each further hex digit multiplies the number by 16 and adds the digit |
| LineTool.HexNumberPair | src/shapes/Line.js:92 | each further pair of hex digits multiplies the number by 256 and adds the pair's value |
| LineTool.SixDigits | src/shapes/Line.js:92 | six hex digits are three bytes, most significant first |
| LineTool.Bytes | src/shapes/Line.js:93 | `>> 16 & 255`, `>> 8 & 255` and `& 255` pick the three bytes of a 24-bit number |
| LineTool.ToGlsl | src/shapes/Line.js:85-96 | a colour exactly for `#` plus 3 or 6 hex digits, else `Bad Hex`; four numbers, channels in [0, 1], alpha 1 |
| LineTool.ToGlslShorthand | src/shapes/Line.js:89-91 | `#abc` gives the same colour as `#aabbcc` |
| LineTool.ToGlslMatchesHexToRgb | src/shapes/Line.js:92-93 | for `#rrggbb`, the channels are hexToRgb's channels divided by 255 |
| LineTool.ToGlslBlack | src/shapes/Line.js:85-96 | `#000000` is opaque black |
| LineTool.Line.constructor | src/shapes/Line.js:28-35 | stores the endpoints, colour `#000000` and vertices `[[x1, y1], [x2, y2]]`; it draws 2 vertices |
| LineTool.Line.ChangeColor | src/shapes/Line.js:46-48 | only colorHex changes |
| LineTool.Line.Draw | src/shapes/Line.js:50-83 | draws GL_LINES over this line's vertices, as many as it has, with its colour twice; nothing is drawn (toGLSL throws `Bad Hex`) exactly when the colour is rejected |
| LineTool.CurrentState.constructor | src/app.js:8-11 | the list starts empty |
| LineTool.CurrentState.Add | src/app.js:13-15 | the object goes to the end of the list |
| LineTool.CurrentState.DrawAllObjects | src/app.js:17-22 | draws every line in order; it throws `Bad Hex` exactly at the first line whose colour toGLSL rejects |
| LineTool.DrawLine | src/shapes/Line.js:4-24 | throws before any change when a stored line has a bad colour; otherwise the first click stores p1 and the second adds the black line from p1 to p2 and redraws all lines |
| FlatLine.Endpoints | src/line.js:14-22 | the flat list has 4 numbers |
| FlatLine.FlatIsFlattenedSegment | src/line.js:14-22 | the flat list is the flatten of `[[x1, y1], [x2, y2]]`, and of the two vertices the line tool stores for the same endpoints |
| FlatLine.Line.constructor | src/line.js:5-12 | stores the endpoints, colour `#000000`, and the flat list once |
| FlatLine.Line.MakeVertices | src/line.js:14-22 | four numbers that read back as the two endpoints |
| FlatLine.Line.ChangeColor | src/line.js:24-26 | only colorHex changes; the endpoints and the list stay |
| FlatLine.Line.DrawAsWritten | src/line.js:29-33 | as written the draw throws a ReferenceError |
| FlatLine.Line.Draw | src/line.js:29-33 | with its own buffer bound, the draw is the segment between the endpoints, 2 vertices, black |
| FlatLine.RecolourDrawsSame | src/line.js:24-33 | recolouring a line does not change what it draws |
| PolygonDraft.Polygon.constructor | src/polygon.js:3-12 | empty lists, n = 3, last_n = 1 |
| PolygonDraft.Polygon.ChangeN | src/polygon.js:14-16 | n becomes the input's value |
| PolygonDraft.Polygon.DrawPolygon | src/polygon.js:18-71 | keeps \|vertices\| = \|colors\| = last_n − 1 with black colours; below n a click appends one flipped point; otherwise it draws every point as a fan of last_n vertices and resets |
| PolygonDraft.Triangle | src/polygon.js:10-31 | with n = 3 the first two clicks accumulate and the third draws a 3-vertex fan |
| PolygonDraft.NotANumber | src/polygon.js:14-25 | when the input is not a number, every click draws a fan of its own single point |

## Findings

| source | as written | input that shows it | evidently intended | confidence | as-written member | corrected member |
|---|---|---|---|---|---|---|
| src/shapes/Polygon.js:383-384 | `getAngle` and `getDistance` are called without `this.`, but they are methods of the class | any 3 points: the first candidate that is not the current point reaches the call | `this.getAngle` and `this.getDistance`, the gift-wrapping walk, which `ToConvexHullPolygonIntended` installs as the vertices | not executed | PolygonShape.ConvexHullAsWritten | PolygonShape.ConvexHull |
| src/line.js:84 | the draw binds `vertex_buffer`, a name declared nowhere, instead of the buffer `vbuffer` it created | drawing any line | bind `vbuffer`, then draw `vertices.length / 2` = 2 vertices | not executed | FlatLine.Line.DrawAsWritten | FlatLine.Line.Draw |

## Left out

- WebGL and the DOM are not modelled. This covers shader compilation, buffer uploads, `drawArrays`, `requestAnimationFrame`, `readPixels`, event-handler assignment, file dialogs, `FileReader`, `confirm` and the download anchor. The model keeps what these calls receive: buffers, modes, counts and parsed records.
- Float32 rounding and IEEE arithmetic are not modelled, since coordinates are exact reals. NaN appears only where a branch depends on it: the polygon draft's `n` and the sides guard.
- `Math.cos`, `Math.sin`, `Math.sqrt` and `Math.atan2` are not modelled beyond the facts the lemmas assume. `getAngle` is modelled by the sign of atan2, from the signs of the cross and dot products.
- SquareShape.Square.MoveVertex: when the grabbed corner lies at the centre, the length is zero and the source stores NaN. The model returns `NotANumber` and leaves the square unchanged.
- Scene.ChannelByte: the GPU's conversion of the hit colour to a byte is idealised as clamp, scale by 255 and round half up.
- PolygonShape.ConvexHull: the do-while may never return to the leftmost point. The walk is bounded by a fuel parameter, and an unfinished walk is reported as `Unclosed`.
- PolygonShape.GetDistanceMetric: states symmetry and non-negativity, not that the distance is zero only for equal points.
- No concrete convex-hull example is proved.
- PolygonShape.Polygon.ToConvexHullPolygonIntended: even with the helper calls fixed, toConvexHullPolygon would leave a polygon whose vertex list repeats the leftmost point and no longer matches `sides` and `colors`. The ReferenceError of the code as written hides this. No corrected version is modelled, because the source does not say which colours or side count the hull should get.
- RectangleShape.Rectangle.constructor, SquareShape.Square.constructor, PolygonShape.Polygon.constructor: require a default colour `hexToRgb` accepts. The class's static `defaultColor` starts as `#000000` and is otherwise written only from colour inputs, which give `#rrggbb`. The TypeError a malformed default would raise inside the constructor is not modelled.
- `Valid` is not required by the setters. A load copies saved vertex and colour lists as they are. Each setter promises to keep `Valid` rather than demand it, and the per-vertex facts of `Translate` and `MoveVertex` are stated for `Valid` shapes.
- `animateRotation` is carried as a field that nothing reads, as in the source.
- Scene.Webcad.Render: uses each object's `getVertices` result through `ViewsOf`, the function each class's `GetVertices` method is proved to compute, instead of calling the method inside the loop.
- The `render` that `addObject`, the cursor click and a load call afterwards is not repeated in those members.
- The `onCreate` handlers of the three shape classes are not modelled, except for the mouse-move drag formula (`Drag`). That leaves out taking `lastId++`, `addObject` and the handler assignment.
- Sidebar descriptors are not modelled, except for the Rectangle Width and Height inputs, the Polygon Sides inputs and the create-time default sides. The lock-ratio width and height inputs of the polygon, the angle inputs (which are `setAngle` after `parseFloat`) and the vertex-colour inputs are left out.
- Saved records hold the full field set of their class. A record whose `type` and fields disagree, or numbers as JSON writes them, are not modelled.
- The `shapeTypes` table is not part of this model. It is assumed to map the three type strings to the three shape classes.
- `Shape`'s logging stubs are not modelled. `Rectangle.setAngle` inherits one, and it changes nothing.
- src/app.js is modelled only as far as `drawLine` uses it: the object list, `add` and `drawAllObjects`.
- LineTool.Line.Draw: covers only what `renderLine` computes from a line. The GL calls are left out.
- FlatLine.Line.Draw: in its GL calls, the draw also reads 3 floats per vertex from a list of pairs. This is not modelled.

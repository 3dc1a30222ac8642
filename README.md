# labelme Shape, modelled in Dafny

This project models the `Shape` class of the labelme image-labelling tool
(`labelme/shape.py`): the in-memory data model of one annotation shape,
without its Qt drawing. A shape holds an ordered vertex list, a closing
flag, a label with the two colours derived from it, the fill and selected
flags, and a highlight state that tells a painter which vertex to enlarge.

- `wrappers.dfy` — `Option` (Python's `None`) and `Result` (a raised `IndexError`).
- `geometry.dfy` — module `Geometry`: integer points, translation of a vertex
  list (`moveBy`), and the order-sensitive axis-aligned rectangle test
  (`isRectangle`).
- `selection.dfy` — module `Selection`: the running-minimum scan that both hit
  tests run (`Scan`), what its answer promises (`IsNearest`: nothing within
  epsilon, or the nearest candidate within epsilon with ties going to the
  lowest index), and lemmas tying the two together.
- `label_color.dfy` — module `LabelColor`: `onebyte_hash`, the line and fill
  colours derived from a label, and the shared default colours as constants.
- `shape.dfy` — module `Shapes`: class `Shape` with the source's mutable fields
  and its methods, plus Python's list-index and `list.insert` position rules.

Points are integer pairs and colours integer RGBA 4-tuples. The two distance
functions the hit tests call (`labelme.utils.distance`,
`labelme.utils.distancetoline`) are not part of this model: `NearestVertex`
takes `distance`, applied to the difference vector `p - point` as the source
does, and `NearestEdge` takes `toSegment(point, a, b)`. What is verified is
the selection rule, not the floating-point geometry.

Behaviour worth knowing, as the code has it:

- `isRectangle` needs the stored order to begin with a horizontal edge
  (`p0.y == p1.y`, then `p1.x == p2.x`, ...). So `[(0,0),(3,0),(3,2),(0,2)]`
  passes while the same corners in vertical-first order
  `[(0,0),(0,2),(3,2),(3,0)]` fail, as does `[(0,0),(3,2),(0,2),(3,0)]`
  (`Geometry.RectangleOrderMatters`). The model follows the code.
- `insertPoint` calls Python's `list.insert`, which never raises: a negative
  index counts from the back and an out-of-range one is clamped to the nearest
  end. The model reproduces this (`Shapes.InsertPosition`) instead of treating
  an out-of-range index as an error.
- `__getitem__`, `__setitem__` and `moveVertexBy` use Python indexing, so
  negative indices count from the back and anything outside `-n <= i < n`
  raises `IndexError`, modelled as `Err(IndexError)` or `ok == false` with the
  vertex list unchanged.
- `nearestEdge` always considers edge 0, from the last vertex to the first,
  whether or not the shape is closed (`Shapes.Edge`).
- `onebyte_hash` reduces modulo 256 with Python's floored `%`; for the positive
  modulus 256 this equals Dafny's `%`, so the model is exact for every
  character ('A' gives 192).
- `highlightClear` resets only the index; the mode is kept.
- `isClosed` is `Shape.IsClosed`, a read of the `closed` field; the
  highlight-mode table (mode to size multiplier and marker) is
  `Shapes.HighlightSettings`.

## Model

| member | source | states |
|---|---|---|
| `Geometry.Translated` | labelme/shape.py:208 | the moved list has the same length and vertex `k` is the old vertex `k` plus the offset |
| `Geometry.IsRectangle` | labelme/shape.py:234-244 | the test passes only for four vertices, and then the first and third vertices fix the other two: `p1 = (p2.x, p0.y)`, `p3 = (p0.x, p2.y)` |
| `Shapes.HighlightSettings` | labelme/shape.py:50-53 | NEAR_VERTEX draws a round marker and MOVE_VERTEX a square one, each enlarged (multipliers 4 and 1.5) |
| `Shapes.Shape.IsClosed` | labelme/shape.py:80-81 | reports the closing flag |
| `Geometry.TranslatedComposes` | labelme/shape.py:207-208 | moving by `a` and then by `b` equals moving by `a + b` |
| `Geometry.TranslatedRoundTrip` | labelme/shape.py:207-208 | moving by an offset and then by its opposite restores every vertex |
| `Geometry.IsRectangleIffAxisRectangle` | labelme/shape.py:234-244 | the rectangle test holds exactly for four corners `(x0,y0),(x1,y0),(x1,y1),(x0,y1)` of an axis-aligned rectangle, in that order |
| `Geometry.RectangleSymmetries` | labelme/shape.py:234-244 | a passing corner list still passes when started at the opposite corner or walked backwards |
| `Geometry.RectangleOrderMatters` | labelme/shape.py:234-244 | the test is order-sensitive: one order of the corners of a 3x2 rectangle passes, the vertical-first order, a crossed order and a rotation by one fail |
| `Geometry.RectangleTranslationInvariant` | labelme/shape.py:234-244 | translating the vertices does not change the rectangle test's answer |
| `Selection.Scan` | labelme/shape.py:174-182 | the running-minimum scan only ever returns an in-range index whose distance is within epsilon |
| `Selection.ScanIsNearest` | labelme/shape.py:174-182 | the scan returns None iff every distance exceeds epsilon; otherwise its index is within epsilon, no candidate within epsilon is nearer, and every earlier candidate within epsilon is strictly farther |
| `Selection.NearestIsUnique` | labelme/shape.py:179 | at most one answer satisfies that promise, so the lowest-index tie rule decides ties |
| `Selection.ScanIffNearest` | labelme/shape.py:174-182 | the scan's answer equals `r` if and only if `r` satisfies the promise |
| `Selection.ScanStableUnderWiderEpsilon` | labelme/shape.py:179 | once a hit is found, any larger epsilon gives the same hit |
| `LabelColor.OnebyteHash` | labelme/shape.py:87-88 | the hash is a byte, and a lower-case letter maps to ten times its distance from 'a' |
| `LabelColor.LabelGreen` | labelme/shape.py:95-98 | the green channel is a byte (128 for a one-character label) |
| `LabelColor.LineColorFor` | labelme/shape.py:90-100 | the line colour is byte-valued and is the default green exactly when there is no label |
| `LabelColor.FillColorFor` | labelme/shape.py:102-112 | the fill colour is byte-valued and is the default red exactly when there is no label |
| `LabelColor.FillMirrorsLine` | labelme/shape.py:90-112 | for a label, the fill colour is the line colour with red and blue exchanged |
| `LabelColor.HashSeparatesLetters` | labelme/shape.py:87-88 | distinct lower-case letters hash to distinct bytes; 'a' gives 0 and 'z' gives 250 |
| `LabelColor.LabelColorExamples` | labelme/shape.py:87-112 | "ab" gives line (0,10,10,200) and fill (10,10,0,200); "c" gives line (20,128,20,200); 'A' hashes to 192 |
| `Shapes.NormalizeIndex` | labelme/shape.py:249-253 | a Python index is valid iff `-n <= key < n`, and then names the position `key` or `key + n` |
| `Shapes.InsertPosition` | labelme/shape.py:77-78 | `list.insert` uses `i` when in `0..n`, counts a negative `i` from the back, and clamps the rest to `0` or `n` |
| `Shapes.VertexDistances` | labelme/shape.py:177-178 | one distance per vertex |
| `Shapes.Edge` | labelme/shape.py:188 | edge 0 runs from the last vertex to the first, whatever the closing flag; edge `i > 0` runs from vertex `i - 1` to vertex `i` |
| `Shapes.EdgeDistances` | labelme/shape.py:187-189 | one distance per edge, as many edges as vertices |
| `Shapes.Shape.constructor` | labelme/shape.py:38-61 | a new shape is empty, open, unfilled, unselected and unhighlighted in NEAR_VERTEX mode, with label colours unless a line colour is given |
| `Shapes.Shape.Close` | labelme/shape.py:63-64 | the shape is closed afterwards |
| `Shapes.Shape.AddPoint` | labelme/shape.py:66-70 | re-adding the first vertex closes the shape and stores nothing; otherwise the point is appended and the closing flag is unchanged, so the first vertex is never stored again at the end |
| `Shapes.Shape.PopPoint` | labelme/shape.py:72-75 | an empty shape gives None and stays empty; otherwise the old list is the new list followed by the returned vertex |
| `Shapes.Shape.InsertPoint` | labelme/shape.py:77-78 | the point lands at the `list.insert` position with the old prefix before it and the old suffix after it |
| `Shapes.Shape.SetOpen` | labelme/shape.py:83-84 | the shape is open afterwards |
| `Shapes.Shape.SetLineColor` | labelme/shape.py:90-100 | the line colour becomes the label's line colour and the shape stays valid |
| `Shapes.Shape.SetFillColor` | labelme/shape.py:102-112 | the fill colour becomes the label's fill colour and the shape stays valid |
| `Shapes.Shape.NearestVertex` | labelme/shape.py:174-182 | the loop returns the nearest vertex within epsilon with ties to the lowest index, or None when no vertex is within epsilon |
| `Shapes.Shape.NearestEdge` | labelme/shape.py:184-193 | the same rule over edges, the result below the vertex count and None for an empty shape |
| `Shapes.Shape.MoveBy` | labelme/shape.py:207-208 | every vertex moves by the offset and the count is kept |
| `Shapes.Shape.MoveVertexBy` | labelme/shape.py:210-211 | only the vertex at the Python index moves; an invalid index changes nothing and reports the IndexError |
| `Shapes.Shape.HighlightVertex` | labelme/shape.py:213-215 | exactly vertex `i` is highlighted, in the given mode, with no range check |
| `Shapes.Shape.HighlightClear` | labelme/shape.py:217-218 | no vertex is highlighted afterwards and the mode is unchanged |
| `Shapes.Shape.VertexStyle` | labelme/shape.py:156-162 | the highlighted vertex gets its mode's size and marker, every other vertex the plain size and round marker |
| `Shapes.Shape.VertexFillColor` | labelme/shape.py:163-166 | vertices are filled with the highlight colour exactly while some vertex is highlighted |
| `Shapes.Shape.Copy` | labelme/shape.py:220-231 | the copy is a new object with equal label, type, vertices, flags and colours, and no highlight |
| `Shapes.EditCopy` | labelme/shape.py:220-231 | assigning a vertex of a copy changes exactly that vertex of the copy (nothing for an invalid index) and leaves the original's vertices unchanged |
| `Shapes.Shape.Length` | labelme/shape.py:246-247 | the length is zero exactly when there are no vertices |
| `Shapes.Shape.GetItem` | labelme/shape.py:249-250 | an index in `-n..n-1` gives the vertex counted from the front or the back; any other index is an IndexError |
| `Shapes.Shape.SetItem` | labelme/shape.py:252-253 | a valid index replaces exactly that vertex and keeps the rest; an invalid one changes nothing and reports the IndexError |

## Left out

- Drawing (`paint`, `drawVertex`): Qt pens, painter paths and float scaling are not modelled; only which size, marker and vertex fill colour a vertex would get (`VertexStyle`, `VertexFillColor`). Painting first recomputes both colours from the label, so a line colour given to the constructor lasts only until the first paint; in the model it lasts until the next `SetLineColor`.
- Aliasing of the vertex list: `points` is a sequence value. `moveBy` binds a new list, while `addPoint`, `popPoint`, `insertPoint` and `__setitem__` change the Python list in place, so a caller holding the old list would see those changes; the model does not capture that, and the copy's separate vertex storage holds by construction.
- `makePath`, `containsPoint`, `boundingRect`: they delegate to Qt's `QPainterPath`, whose fill rule and bounds are not visible.
- `labelme.utils.distance` and `labelme.utils.distancetoline` are not part of this model; they are parameters of the hit tests.
- Floating point: coordinates are integers, so the fuzzy comparison Qt uses for point equality in `addPoint` is exact equality here; `float('inf')` as the starting minimum is modelled by "no hit yet".
- `QColor`: colours are plain integer 4-tuples; the shared class-level colours and sizes are constants.
- Shapes.Shape.Copy: the source passes `self.type` into the constructor's line-colour slot before overwriting the line colour; the copy passes no override, which gives the same final fields.
- Empty-string labels raise in the colour derivation; the model requires a present label to be non-empty (`WellFormedLabel`).
- Slices in `__getitem__`/`__setitem__` are not modelled; only integer indices are.
- Highlight modes are a two-value datatype; the source accepts any integer action, which `drawVertex` would then fail to look up.

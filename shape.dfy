/**
 * One annotation shape of the image-labelling tool: its vertex list and
 * closing flag, hit tests, highlight state, label colours and copy.
 * Drawing is not modelled; the shape only holds the state a painter reads.
 */
module Shapes {
  import opened Wrappers
  import opened Geometry
  import opened Selection
  import opened LabelColor

  /** What the user is doing to the highlighted vertex. */
  datatype HighlightMode = MoveVertex | NearVertex

  /** How a vertex is marked when drawn. */
  datatype Marker = Square | Round

  /** The error Python raises for an index outside the vertex list. */
  datatype IndexError = IndexError

  /** The marker every vertex gets unless it is highlighted. */
  const DefaultMarker := Round

  /** The vertex size multiplier and marker for each highlight mode. */
  function HighlightSettings(mode: HighlightMode): (setting: (real, Marker))
    ensures setting.0 > 1.0
    ensures setting.1 == Round <==> mode == NearVertex
  {
    match mode
    case NearVertex => (4.0, Round)
    case MoveVertex => (1.5, Square)
  }

  /**
   * Python's reading of a list index `key` into a list of length `n`:
   * a non-negative key counts from the front, a negative one from the back,
   * and anything outside `-n <= key < n` is an IndexError.
   */
  function NormalizeIndex(n: nat, key: int): (r: Option<nat>)
    ensures r.Some? <==> -(n as int) <= key < n
    ensures r.Some? ==> r.value < n && (r.value == key || r.value == key + n)
  {
    if 0 <= key < n then Some(key)
    else if -(n as int) <= key < 0 then Some(key + n)
    else None
  }

  /**
   * The position at which Python's `list.insert(i, x)` places `x` in a list
   * of length `n`: `i` counted from the back when negative, then clamped
   * into `0..n`.
   */
  function InsertPosition(n: nat, i: int): (k: nat)
    ensures k <= n
    ensures 0 <= i <= n ==> k == i
    ensures -(n as int) <= i < 0 ==> k == i + n
    ensures i < -(n as int) ==> k == 0
    ensures n < i ==> k == n
  {
    if i < 0 then (if i + n < 0 then 0 else i + n)
    else if i > n then n
    else i
  }

  /** The distance from `q` to each vertex, with `distance` the length of a difference vector. */
  function VertexDistances(pts: seq<Point>, q: Point, distance: Point -> real): (ds: seq<real>)
    ensures |ds| == |pts|
  {
    seq(|pts|, k requires 0 <= k < |pts| => distance(Sub(pts[k], q)))
  }

  /**
   * Edge `i` runs from the vertex Python finds at index `i - 1` to vertex `i`,
   * so edge 0 is the wrap-around edge from the last vertex to the first.
   */
  function Edge(pts: seq<Point>, i: nat): (e: (Point, Point))
    requires i < |pts|
    ensures i == 0 ==> e == (pts[|pts| - 1], pts[0])
    ensures 0 < i ==> e == (pts[i - 1], pts[i])
  {
    (pts[NormalizeIndex(|pts|, i - 1).value], pts[i])
  }

  /** The distance from `q` to each edge, with `toSegment(q, a, b)` the distance to the segment from `a` to `b`. */
  function EdgeDistances(pts: seq<Point>, q: Point, toSegment: (Point, Point, Point) -> real): (ds: seq<real>)
    ensures |ds| == |pts|
  {
    seq(|pts|, k requires 0 <= k < |pts| => toSegment(q, Edge(pts, k).0, Edge(pts, k).1))
  }

  class Shape {
    var labelText: Option<string>
    /** The shape type tag ("line", "polygon", ...); only drawing reads it. */
    var kind: Option<string>
    var points: seq<Point>
    var fill: bool
    var selected: bool
    var closed: bool
    var lineColor: Color
    var fillColor: Color
    /** The highlighted vertex; never range-checked, so it may be stale. */
    var highlightIndex: Option<int>
    var highlightMode: HighlightMode

    /** The label can be coloured and both colours are byte-valued. */
    predicate Valid()
      reads this
    {
      WellFormedLabel(labelText) && IsRgba(lineColor) && IsRgba(fillColor)
    }

    /** A new open, empty, unhighlighted shape; a given line colour overrides the label's. */
    constructor (labelText: Option<string>, lineColor: Option<Color>, kind: Option<string>)
      requires WellFormedLabel(labelText)
      requires lineColor.Some? ==> IsRgba(lineColor.value)
      ensures Valid()
      ensures this.labelText == labelText && this.kind == kind
      ensures points == [] && !fill && !selected && !closed
      ensures this.lineColor == if lineColor.Some? then lineColor.value else LineColorFor(labelText)
      ensures fillColor == FillColorFor(labelText)
      ensures highlightIndex == None && highlightMode == NearVertex
    {
      this.labelText := labelText;
      points := [];
      fill := false;
      selected := false;
      this.kind := kind;
      this.lineColor := LineColorFor(labelText);
      fillColor := FillColorFor(labelText);
      highlightIndex := None;
      highlightMode := NearVertex;
      closed := false;
      if lineColor.Some? {
        this.lineColor := lineColor.value;
      }
    }

    method Close()
      modifies this`closed
      ensures closed
    {
      closed := true;
    }

    /**
     * Adding the first vertex again closes the shape and stores nothing;
     * any other point is appended and the closing flag is left alone.
     */
    method AddPoint(p: Point)
      modifies this`points, this`closed
      ensures old(points) != [] && p == old(points)[0] ==> closed && points == old(points)
      ensures !(old(points) != [] && p == old(points)[0]) ==>
        points == old(points) + [p] && closed == old(closed)
      ensures |points| > |old(points)| ==> |points| == 1 || points[|points| - 1] != points[0]
    {
      if points != [] && p == points[0] {
        Close();
      } else {
        points := points + [p];
      }
    }

    /** Removes and returns the last vertex; an empty shape gives None and stays empty. */
    method PopPoint() returns (r: Option<Point>)
      modifies this`points
      ensures old(points) == [] <==> r.None?
      ensures r.None? ==> points == []
      ensures r.Some? ==> old(points) == points + [r.value]
    {
      if points != [] {
        r := Some(points[|points| - 1]);
        points := points[..|points| - 1];
      } else {
        r := None;
      }
    }

    /** Places `p` where Python's `list.insert` puts it, shifting the rest one place right. */
    method InsertPoint(i: int, p: Point)
      modifies this`points
      ensures var k := InsertPosition(|old(points)|, i);
        points == old(points)[..k] + [p] + old(points)[k..]
    {
      var k := InsertPosition(|points|, i);
      points := points[..k] + [p] + points[k..];
    }

    function IsClosed(): (r: bool)
      reads this
      ensures r <==> closed
    {
      closed
    }

    method SetOpen()
      modifies this`closed
      ensures !IsClosed()
    {
      closed := false;
    }

    /** Recomputes the line colour from the label. */
    method SetLineColor()
      requires Valid()
      modifies this`lineColor
      ensures Valid()
      ensures lineColor == LineColorFor(labelText)
    {
      lineColor := LineColorFor(labelText);
    }

    /** Recomputes the fill colour from the label. */
    method SetFillColor()
      requires Valid()
      modifies this`fillColor
      ensures Valid()
      ensures fillColor == FillColorFor(labelText)
    {
      fillColor := FillColorFor(labelText);
    }

    /**
     * The vertex nearest to `point` among those within `epsilon`, the lowest
     * index winning a tie, or None when no vertex is within `epsilon`.
     */
    method NearestVertex(point: Point, epsilon: real, distance: Point -> real) returns (r: Option<nat>)
      ensures IsNearest(VertexDistances(points, point, distance), epsilon, r)
      ensures r == Scan(VertexDistances(points, point, distance), epsilon)
    {
      ghost var ds := VertexDistances(points, point, distance);
      // `minDistance` stands for +infinity while nothing has been found.
      var minDistance := 0.0;
      r := None;
      var i := 0;
      while i < |points|
        invariant 0 <= i <= |points|
        invariant r == Scan(ds[..i], epsilon)
        invariant r.Some? ==> minDistance == ds[r.value]
      {
        var dist := distance(Sub(points[i], point));
        assert ds[..i + 1][..i] == ds[..i];
        if dist <= epsilon && (r.None? || dist < minDistance) {
          minDistance := dist;
          r := Some(i);
        }
        i := i + 1;
      }
      assert ds[..i] == ds;
      ScanIsNearest(ds, epsilon);
    }

    /**
     * The edge nearest to `point` among those within `epsilon`, named by the
     * index of its end vertex, under the same rule as NearestVertex. Edge 0,
     * from the last vertex to the first, is always a candidate, closed or not.
     */
    method NearestEdge(point: Point, epsilon: real, toSegment: (Point, Point, Point) -> real) returns (r: Option<nat>)
      ensures IsNearest(EdgeDistances(points, point, toSegment), epsilon, r)
      ensures r == Scan(EdgeDistances(points, point, toSegment), epsilon)
      ensures r.Some? ==> r.value < |points|
      ensures points == [] ==> r.None?
    {
      ghost var ds := EdgeDistances(points, point, toSegment);
      var minDistance := 0.0;
      r := None;
      var i := 0;
      while i < |points|
        invariant 0 <= i <= |points|
        invariant r == Scan(ds[..i], epsilon)
        invariant r.Some? ==> minDistance == ds[r.value]
      {
        var line := Edge(points, i);
        var dist := toSegment(point, line.0, line.1);
        assert ds[..i + 1][..i] == ds[..i];
        if dist <= epsilon && (r.None? || dist < minDistance) {
          minDistance := dist;
          r := Some(i);
        }
        i := i + 1;
      }
      assert ds[..i] == ds;
      ScanIsNearest(ds, epsilon);
    }

    /** Moves every vertex by `offset`. */
    method MoveBy(offset: Point)
      modifies this`points
      ensures points == Translated(old(points), offset)
      ensures forall k :: 0 <= k < |points| ==> points[k] == Add(old(points)[k], offset)
    {
      points := Translated(points, offset);
    }

    /**
     * Moves the vertex at Python index `i` by `offset` and no other; an index
     * outside the list raises IndexError (`ok` false) and changes nothing.
     */
    method MoveVertexBy(i: int, offset: Point) returns (ok: bool)
      modifies this`points
      ensures ok <==> -|old(points)| <= i < |old(points)|
      ensures |points| == |old(points)|
      ensures ok ==> var k := NormalizeIndex(|old(points)|, i).value;
        points[k] == Add(old(points)[k], offset)
        && forall j :: 0 <= j < |points| && j != k ==> points[j] == old(points)[j]
      ensures !ok ==> points == old(points)
    {
      var k := NormalizeIndex(|points|, i);
      ok := k.Some?;
      if ok {
        points := points[k.value := Add(points[k.value], offset)];
      }
    }

    /** Marks vertex `i` as highlighted in `mode`; `i` is not checked against the vertex list. */
    method HighlightVertex(i: int, mode: HighlightMode)
      modifies this`highlightIndex, this`highlightMode
      ensures IsHighlighted(i) && highlightMode == mode
      ensures forall j :: IsHighlighted(j) ==> j == i
    {
      highlightIndex := Some(i);
      highlightMode := mode;
    }

    /** Clears the highlight; the mode is kept. */
    method HighlightClear()
      modifies this`highlightIndex
      ensures forall j :: !IsHighlighted(j)
      ensures highlightMode == old(highlightMode)
    {
      highlightIndex := None;
    }

    /** Whether vertex `i` is the highlighted one. */
    predicate IsHighlighted(i: int)
      reads this
    {
      highlightIndex == Some(i)
    }

    /**
     * The size multiplier and marker a painter uses for vertex `i`: the
     * highlight mode's setting for the highlighted vertex, plain otherwise.
     */
    function VertexStyle(i: int): (style: (real, Marker))
      reads this
      ensures IsHighlighted(i) ==> style == HighlightSettings(highlightMode)
      ensures !IsHighlighted(i) ==> style == (1.0, DefaultMarker)
      ensures style.0 >= 1.0
    {
      if highlightIndex == Some(i) then HighlightSettings(highlightMode) else (1.0, DefaultMarker)
    }

    /** The vertex fill colour: the highlight colour while any vertex is highlighted. */
    function VertexFillColor(): (c: Color)
      reads this
      ensures (exists j :: IsHighlighted(j)) <==> c == DefaultHighlightVertexFillColor
    {
      if highlightIndex.Some? then
        assert IsHighlighted(highlightIndex.value);
        DefaultHighlightVertexFillColor
      else
        DefaultVertexFillColor
    }

    /**
     * A new shape with the same label, type, vertices, flags and colours,
     * starting unhighlighted. Sequences are values, so the copy's vertex
     * list is its own.
     */
    method Copy() returns (s: Shape)
      requires Valid()
      ensures fresh(s) && s.Valid()
      ensures s.labelText == labelText && s.kind == kind && s.points == points
      ensures s.fill == fill && s.selected == selected && s.closed == closed
      ensures s.lineColor == lineColor && s.fillColor == fillColor
      ensures s.highlightIndex == None && s.highlightMode == NearVertex
    {
      s := new Shape(labelText, None, kind);
      s.kind := kind;
      s.points := points;
      s.fill := fill;
      s.selected := selected;
      s.closed := closed;
      s.lineColor := lineColor;
      s.fillColor := fillColor;
    }

    /** The number of vertices. */
    function Length(): (n: nat)
      reads this
      ensures n == 0 <==> points == []
    {
      |points|
    }

    /** The vertex at Python index `key`, or IndexError. */
    function GetItem(key: int): (r: Result<Point, IndexError>)
      reads this
      ensures r.Ok? <==> -(Length() as int) <= key < Length()
      ensures r.Ok? && 0 <= key ==> r.value == points[key]
      ensures r.Ok? && key < 0 ==> r.value == points[Length() + key]
    {
      match NormalizeIndex(|points|, key)
      case Some(k) => Ok(points[k])
      case None => Err(IndexError)
    }

    /** Replaces the vertex at Python index `key`; IndexError (`ok` false) changes nothing. */
    method SetItem(key: int, value: Point) returns (ok: bool)
      modifies this`points
      ensures ok <==> old(GetItem(key)).Ok?
      ensures ok ==> |points| == |old(points)| && GetItem(key) == Ok(value)
      ensures ok ==> forall j :: 0 <= j < |points| && j != NormalizeIndex(|points|, key).value ==>
        points[j] == old(points)[j]
      ensures !ok ==> points == old(points)
    {
      var k := NormalizeIndex(|points|, key);
      ok := k.Some?;
      if ok {
        points := points[k.value := value];
      }
    }
  }

  /** Editing a copy leaves the original's vertices as they were. */
  method EditCopy(original: Shape, key: int, value: Point) returns (c: Shape)
    requires original.Valid()
    ensures fresh(c) && original.points == old(original.points)
    ensures c.closed == original.closed && |c.points| == |original.points|
    ensures -|original.points| <= key < |original.points| ==>
      c.points == original.points[NormalizeIndex(|original.points|, key).value := value]
    ensures !(-|original.points| <= key < |original.points|) ==> c.points == original.points
  {
    c := original.Copy();
    var ok := c.SetItem(key, value);
    if ok {
      assert c.points == original.points[NormalizeIndex(|original.points|, key).value := value];
    }
  }
}

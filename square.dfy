/**
 * The Square shape (src/shapes/Square.js): a centre, a width and an angle in
 * degrees. recalculateVertices lays out the four axis-aligned corners and rotates
 * each about the centre; the hit test and the vertex drag work in the square's own
 * frame, reached by moving back to the origin and rotating by -angle.
 */
module SquareShape {
  import opened Wrappers
  import opened Utils

  /** The corners' offsets from the centre before rotation: top-left, top-right, bottom-left, bottom-right. */
  function Offsets(w: real): (os: seq<Point>)
    ensures |os| == 4
  {
    [Point(-w / 2.0, w / 2.0), Point(w / 2.0, w / 2.0), Point(-w / 2.0, -w / 2.0), Point(w / 2.0, -w / 2.0)]
  }

  /** Corner i: its offset rotated by `angle` degrees and placed at the centre. */
  function Corner(center: Point, w: real, angle: real, host: Host, i: nat): Point
    requires i < 4
  {
    Add(center, Turn(Offsets(w)[i], host.cosSin(angle)))
  }

  /** The four corners recalculateVertices leaves in `vertices`. */
  function Placed(center: Point, w: real, angle: real, host: Host): (vs: seq<Point>)
    ensures |vs| == 4
  {
    [Corner(center, w, angle, host, 0), Corner(center, w, angle, host, 1),
     Corner(center, w, angle, host, 2), Corner(center, w, angle, host, 3)]
  }

  /** A square of width 0 has all four corners at its centre, whatever the angle. */
  lemma PlacedZeroWidth(center: Point, angle: real, host: Host)
    ensures Placed(center, 0.0, angle, host) == Repeat(center, 4)
  {
    var r := host.cosSin(angle);
    assert Turn(Point(0.0, 0.0), r) == Point(0.0, 0.0);
    assert Offsets(0.0) == [Point(0.0, 0.0), Point(0.0, 0.0), Point(0.0, 0.0), Point(0.0, 0.0)];
    assert Repeat(center, 4) == [center, center, center, center];
  }

  /** A vertex in the square's own frame: moved to the origin, then rotated by -angle. */
  function Local(v: Point, center: Point, angle: real, host: Host): Point {
    Rotate(v.x - center.x, v.y - center.y, -angle, host)
  }

  /** At angle 0 the corners are (x -+ w/2, y +- w/2) in the order top-left, top-right, bottom-left, bottom-right. */
  lemma PlacedAtZero(center: Point, w: real, host: Host)
    requires ExactAtZero(host)
    ensures Placed(center, w, 0.0, host) ==
      [Point(center.x - w / 2.0, center.y + w / 2.0), Point(center.x + w / 2.0, center.y + w / 2.0),
       Point(center.x - w / 2.0, center.y - w / 2.0), Point(center.x + w / 2.0, center.y - w / 2.0)]
  {
  }

  /** Rotating the opposite offset gives the opposite of the rotated offset. */
  lemma TurnNegates(o: Point, r: Rotation)
    ensures Turn(Point(-o.x, -o.y), r) == Point(-Turn(o, r).x, -Turn(o, r).y)
  {
    assert (-o.x) * r.cos == -(o.x * r.cos) && (-o.y) * r.sin == -(o.y * r.sin);
    assert (-o.x) * r.sin == -(o.x * r.sin) && (-o.y) * r.cos == -(o.y * r.cos);
  }

  /** At every angle, opposite corners (0 and 3, 1 and 2) are symmetric about the centre. */
  lemma PlacedCentred(center: Point, w: real, angle: real, host: Host)
    ensures var vs := Placed(center, w, angle, host);
      Midpoint(vs[0], vs[3]) == center && Midpoint(vs[1], vs[2]) == center
  {
    var r := host.cosSin(angle);
    var os := Offsets(w);
    TurnNegates(os[0], r);
    TurnNegates(os[1], r);
    assert os[3] == Point(-os[0].x, -os[0].y) && os[2] == Point(-os[1].x, -os[1].y);
  }

  /**
   * normalize undoes the placement: given that rotating by -angle inverts rotating
   * by angle, every placed corner comes back as its unrotated offset (+-w/2, +-w/2).
   */
  lemma NormalizeUndoes(center: Point, w: real, angle: real, host: Host)
    requires UndoesAt(host, angle)
    ensures forall i :: 0 <= i < 4 ==> Local(Placed(center, w, angle, host)[i], center, angle, host) == Offsets(w)[i]
  {
    forall i | 0 <= i < 4
      ensures Local(Placed(center, w, angle, host)[i], center, angle, host) == Offsets(w)[i]
    {
      var t := Turn(Offsets(w)[i], host.cosSin(angle));
      assert Placed(center, w, angle, host)[i] == Add(center, t);
      assert Sub(Add(center, t), center) == t;
      TurnUndone(Offsets(w)[i], host.cosSin(angle), host.cosSin(-angle));
    }
  }

  /** The sign moveVertex reads off a normalised corner coordinate. */
  function Modifier(v: real): real {
    if v >= 0.0 then 1.0 else -1.0
  }

  /**
   * The vertex drag of moveVertex: growing the width by p and moving the centre by
   * the rotated (+-p/2, +-p/2) toward the grabbed corner k keeps the opposite
   * corner 3 - k exactly where it was, for every p (the width must be positive,
   * so that the signs of the corner's offset are those of its direction).
   */
  lemma MoveKeepsOpposite(center: Point, w: real, angle: real, host: Host, k: nat, p: real)
    requires w > 0.0 && k < 4
    ensures var o := Offsets(w)[k];
      var r := host.cosSin(angle);
      var moved := Add(center, Turn(Point(Modifier(o.x) * p / 2.0, Modifier(o.y) * p / 2.0), r));
      Placed(moved, w + p, angle, host)[3 - k] == Placed(center, w, angle, host)[3 - k]
  {
    var o := Offsets(w)[k];
    var r := host.cosSin(angle);
    var a := Point(Modifier(o.x) * p / 2.0, Modifier(o.y) * p / 2.0);
    var b := Offsets(w + p)[3 - k];
    assert Modifier(o.x) * w / 2.0 == o.x && Modifier(o.y) * w / 2.0 == o.y;
    assert Add(a, b) == Offsets(w)[3 - k];
    TurnAdds(a, b, r);
    assert Placed(Add(center, Turn(a, r)), w + p, angle, host)[3 - k] == Add(Add(center, Turn(a, r)), Turn(b, r));
  }

  /**
   * moveVertex on a consistent square (vertices as recalculateVertices left them,
   * exact rotation back): whatever the projection p, the corner opposite the grabbed
   * one stays where it was.
   */
  lemma MoveVertexKeepsOpposite(center: Point, w: real, angle: real, host: Host, k: nat, p: real)
    requires w > 0.0 && k < 4 && UndoesAt(host, angle)
    ensures var point := Local(Placed(center, w, angle, host)[k], center, angle, host);
      var moved := Add(center, Turn(Point(Modifier(point.x) * p / 2.0, Modifier(point.y) * p / 2.0), host.cosSin(angle)));
      Placed(moved, w + p, angle, host)[3 - k] == Placed(center, w, angle, host)[3 - k]
  {
    NormalizeUndoes(center, w, angle, host);
    MoveKeepsOpposite(center, w, angle, host, k, p);
  }

  /** A centre half a width away from p on both axes, in directions l and t, has p as a corner. */
  lemma PressIsCorner(p: Point, w: real, l: real, t: real)
    requires (l == 1.0 || l == -1.0) && (t == 1.0 || t == -1.0)
    ensures exists k :: 0 <= k < 4 && Add(Point(p.x + w / 2.0 * l, p.y + w / 2.0 * t), Offsets(w)[k]) == p
  {
    var k := (if l > 0.0 then 0 else 1) + (if t > 0.0 then 2 else 0);
    assert Add(Point(p.x + w / 2.0 * l, p.y + w / 2.0 * t), Offsets(w)[k]) == p;
  }

  /** The creation drag's width: the larger of the horizontal and vertical spans. */
  function DragWidth(initial: Point, cursor: Point): (w: real)
    ensures w >= Abs(cursor.x - initial.x) && w >= Abs(cursor.y - initial.y)
    ensures w == Abs(cursor.x - initial.x) || w == Abs(cursor.y - initial.y)
  {
    var dx, dy := Abs(cursor.x - initial.x), Abs(cursor.y - initial.y);
    if dx >= dy then dx else dy
  }

  /** The creation drag's centre: half the width from the press point, toward the cursor on each axis. */
  function DragCenter(initial: Point, cursor: Point): Point {
    var w := DragWidth(initial, cursor);
    Point(initial.x + w / 2.0 * Toward(initial.x, cursor.x), initial.y + w / 2.0 * Toward(initial.y, cursor.y))
  }

  /** The press point is a corner of the square the creation drag describes. */
  lemma DragPressIsCorner(initial: Point, cursor: Point)
    ensures exists k :: 0 <= k < 4 && Add(DragCenter(initial, cursor), Offsets(DragWidth(initial, cursor))[k]) == initial
  {
    PressIsCorner(initial, DragWidth(initial, cursor), Toward(initial.x, cursor.x), Toward(initial.y, cursor.y));
  }

  function Dot(p: Point, q: Point): real {
    p.x * q.x + p.y * q.y
  }

  /** The projection of the rotated drag onto the grabbed corner's direction. */
  function Projection(point: Point, diff: Point, host: Host): real
    requires host.sqrt(Dot(point, point)) != 0.0
  {
    Dot(point, diff) / host.sqrt(Dot(point, point))
  }

  /** What moveVertex did: missed every vertex, moved corner `corner` by `projection`,
      or divided by a zero length (the source then stores NaN). */
  datatype MoveResult = Missed | Moved(corner: nat, projection: real) | NotANumber

  class Square {
    const id: int
    /** The `type` tag, "square". */
    const kind: string
    /** Degrees; setAngle keeps it as JavaScript's `angle % 360`. */
    var angle: real
    var animateRotation: bool
    /** The editor back-reference, reduced to the canvas it is read for; null while saving. */
    var webcad: Canvas?
    var position: Point
    var width: real
    var vertices: seq<Point>
    var colors: seq<Rgba>
    const host: Host

    /** The corners the current position, width and angle describe. */
    function Shape(): seq<Point>
      reads this
    {
      Placed(position, width, angle, host)
    }

    /**
     * What every square the editor builds keeps: four vertices, exactly the
     * corners its fields describe, and four colours. A load copies saved lists as
     * they are, so the setters keep this rather than demand it.
     */
    predicate Valid()
      reads this
    {
      |vertices| == 4 && vertices == Shape() && |colors| == 4
    }

    /** Every vertex in the square's own frame, as normalize returns them. */
    function Normalized(): (ns: seq<Point>)
      reads this
      ensures |ns| == |vertices|
    {
      seq(|vertices|, i requires 0 <= i < |vertices| reads this => Local(vertices[i], position, angle, host))
    }

    /** new Square(id, webcad): the Shape fields, zero geometry, then the default colour. */
    constructor (id: int, webcad: Canvas?, defaultColor: string, host: Host)
      requires HexToRgb(defaultColor).Some?
      ensures this.id == id && kind == "square" && this.webcad == webcad && this.host == host
      ensures angle == 0.0 && !animateRotation
      ensures position == Point(0.0, 0.0) && width == 0.0
      ensures vertices == Repeat(Point(0.0, 0.0), 4)
      ensures colors == Repeat(Opaque(HexToRgb(defaultColor).value), 4)
      ensures Valid()
    {
      this.id := id;
      kind := "square";
      this.webcad := webcad;
      this.host := host;
      angle := 0.0;
      animateRotation := false;
      position := Point(0.0, 0.0);
      width := 0.0;
      vertices := Repeat(Point(0.0, 0.0), 4);
      colors := Repeat(Rgba(0, 0, 0, 1), 4);
      new;
      PlacedZeroWidth(position, angle, host);
      var _ := SetAllVertexColor(defaultColor);
    }

    /** recalculateVertices: the axis-aligned corners, then each rotated about the centre. */
    method RecalculateVertices()
      modifies this`vertices
      ensures vertices == Shape()
    {
      var x, y := position.x, position.y;
      var halfWidth := width / 2.0;
      vertices := [Point(x - halfWidth, y + halfWidth), Point(x + halfWidth, y + halfWidth),
                   Point(x - halfWidth, y - halfWidth), Point(x + halfWidth, y - halfWidth)];
      for i := 0 to |vertices|
        invariant |vertices| == 4
        invariant forall j :: 0 <= j < i ==> vertices[j] == Corner(position, width, angle, host, j)
        invariant forall j :: i <= j < 4 ==> vertices[j] == Add(position, Offsets(width)[j])
      {
        var p := vertices[i];
        assert Point(p.x - x, p.y - y) == Offsets(width)[i];
        var pr := Rotate(p.x - x, p.y - y, angle, host);
        vertices := vertices[i := Point(pr.x + x, pr.y + y)];
      }
    }

    /** normalize: each vertex moved to the origin and rotated back by the angle. */
    method Normalize() returns (normalized: seq<Point>)
      ensures normalized == Normalized()
    {
      var x, y := position.x, position.y;
      normalized := [];
      for i := 0 to |vertices|
        invariant normalized == Normalized()[..i]
      {
        var el := vertices[i];
        var rotated := Rotate(el.x - x, el.y - y, -angle, host);
        normalized := normalized + [rotated];
      }
    }

    method SetPosition(x: real, y: real)
      modifies this`position, this`vertices
      ensures position == Point(x, y) && vertices == Shape()
      ensures old(Valid()) ==> Valid()
    {
      position := Point(x, y);
      RecalculateVertices();
    }

    /** setAngle: stores `angle % 360`, which keeps the sign of the input and stays below 360 in magnitude. */
    method SetAngle(a: real)
      modifies this`angle, this`vertices
      ensures angle == JsRemainder(a, 360.0)
      ensures a >= 0.0 ==> 0.0 <= angle < 360.0
      ensures a < 0.0 ==> -360.0 < angle <= 0.0
      ensures vertices == Shape()
      ensures old(Valid()) ==> Valid()
    {
      angle := JsRemainder(a, 360.0);
      JsRemainderBounds(a, 360.0);
      RecalculateVertices();
    }

    method SetWidth(w: real)
      modifies this`width, this`vertices
      ensures width == w && vertices == Shape()
      ensures old(Valid()) ==> Valid()
    {
      width := w;
      RecalculateVertices();
    }

    /**
     * setAllVertexColor: colours 0..3 become [r, g, b, 255]; a malformed hex makes
     * hexToRgb return null and the first write throws before anything changes.
     */
    method SetAllVertexColor(hex: string) returns (outcome: Outcome)
      modifies this`colors
      ensures HexToRgb(hex).None? ==> outcome == Thrown(NullColorError) && colors == old(colors)
      ensures HexToRgb(hex).Some? ==>
        outcome == Normal && colors == Overwrite(old(colors), Repeat(Opaque(HexToRgb(hex).value), 4))
      ensures HexToRgb(hex).Some? && |old(colors)| <= 4 ==> colors == Repeat(Opaque(HexToRgb(hex).value), 4)
      ensures old(Valid()) ==> Valid()
    {
      var colorArr := HexToRgb(hex);
      assert Overwrite(colors, []) == colors;
      for i := 0 to 4
        invariant colorArr.None? ==> i == 0 && colors == old(colors)
        invariant colorArr.Some? ==> colors == Overwrite(old(colors), Repeat(Opaque(colorArr.value), i))
      {
        if colorArr.None? {
          return Thrown(NullColorError);
        }
        var c := Opaque(colorArr.value);
        OverwriteStep(old(colors), Repeat(c, i), c);
        colors := SetAt(colors, i, c);
      }
      return Normal;
    }

    /** translate: moves only the centre, by (dx, dy). */
    method Translate(dx: real, dy: real)
      modifies this`position, this`vertices
      ensures position == Add(old(position), Point(dx, dy)) && vertices == Shape()
      ensures old(Valid()) ==> Valid()
      ensures old(Valid()) ==> forall i :: 0 <= i < 4 ==> vertices[i] == Add(old(vertices)[i], Point(dx, dy))
    {
      SetPosition(position.x + dx, position.y + dy);
    }

    method GetVertices() returns (r: seq<real>)
      requires webcad != null
      ensures r == DeviceCoords(vertices, webcad.width, webcad.height)
    {
      r := FlattenVertices(vertices, webcad.width, webcad.height);
    }

    method GetVerticesColors() returns (r: seq<real>)
      ensures r == DeviceColors(colors)
    {
      r := FlattenColors(colors);
    }

    function DrawingMode(): DrawMode {
      TriangleStrip
    }

    /**
     * getVertexIdx: the query point taken into the square's frame, then the first
     * normalised vertex within tolerance of it on both axes, else null.
     */
    method GetVertexIdx(pointX: real, pointY: real, tolerance: real) returns (idx: Option<nat>)
      ensures var q := Local(Point(pointX, pointY), position, angle, host);
        && (idx.Some? ==> idx.value < |vertices| && Near(Normalized()[idx.value], q, tolerance))
        && (idx.Some? ==> forall j :: 0 <= j < idx.value ==> !Near(Normalized()[j], q, tolerance))
        && (idx.None? <==> !Grabbed(Normalized(), q, tolerance))
    {
      var normalized := Normalize();
      var pN := Rotate(pointX - position.x, pointY - position.y, -angle, host);
      idx := FindVertex(normalized, pN, tolerance);
    }

    /**
     * moveVertex: a miss changes nothing. On a hit the drag is rotated into the
     * square's frame and projected on the grabbed corner's direction; the width
     * grows by that projection and the centre moves half of it toward the corner.
     */
    method MoveVertex(pointX: real, pointY: real, tolerance: real, dx: real, dy: real) returns (result: MoveResult)
      modifies this`width, this`position, this`vertices
      ensures result.Missed? <==>
        !Grabbed(old(Normalized()), Local(Point(pointX, pointY), old(position), angle, host), tolerance)
      ensures !result.Moved? ==> width == old(width) && position == old(position) && vertices == old(vertices)
      ensures result.Moved? ==> result.corner < |old(vertices)|
      ensures result.Moved? && result.corner < |old(vertices)| ==>
        var point := old(Normalized())[result.corner];
        && Near(point, Local(Point(pointX, pointY), old(position), angle, host), tolerance)
        && (forall j :: 0 <= j < result.corner ==>
              !Near(old(Normalized())[j], Local(Point(pointX, pointY), old(position), angle, host), tolerance))
        && host.sqrt(Dot(point, point)) != 0.0
        && result.projection == Projection(point, Rotate(dx, dy, -angle, host), host)
        && width == old(width) + result.projection
        && position == Add(old(position),
             Turn(Point(Modifier(point.x) * result.projection / 2.0, Modifier(point.y) * result.projection / 2.0),
                  host.cosSin(angle)))
        && vertices == Shape()
      ensures old(Valid()) ==> Valid()
    {
      ghost var before := Normalized();
      var normalized := Normalize();
      var diffN := Rotate(dx, dy, -angle, host);
      var selected := GetVertexIdx(pointX, pointY, tolerance);
      if selected.None? {
        return Missed;
      }
      var point := normalized[selected.value];
      var norm := host.sqrt(Dot(point, point));
      if norm == 0.0 {
        return NotANumber;
      }
      var projections := Dot(point, diffN) / norm;
      var xModifier := if point.x >= 0.0 then 1.0 else -1.0;
      var yModifier := if point.y >= 0.0 then 1.0 else -1.0;
      var move := Rotate(xModifier * projections / 2.0, yModifier * projections / 2.0, angle, host);
      assert point == before[selected.value];
      SetWidth(width + projections);
      SetPosition(position.x + move.x, position.y + move.y);
      return Moved(selected.value, projections);
    }

    /**
     * The creation drag (onCreate's mousemove handler): the width is the larger of
     * |dx| and |dy| and the centre sits half of it away from the press point toward
     * the cursor, so the press point is one of the four unrotated corners.
     */
    method Drag(initial: Point, cursor: Point)
      modifies this`width, this`position, this`vertices
      ensures width == DragWidth(initial, cursor)
      ensures position == DragCenter(initial, cursor)
      ensures exists k :: 0 <= k < 4 && Add(position, Offsets(width)[k]) == initial
      ensures vertices == Shape()
      ensures old(Valid()) ==> Valid()
    {
      var finalWidth := DragWidth(initial, cursor);
      var center := DragCenter(initial, cursor);
      DragPressIsCorner(initial, cursor);
      SetWidth(finalWidth);
      SetPosition(center.x, center.y);
    }
  }
}

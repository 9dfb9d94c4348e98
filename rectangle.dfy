/**
 * The Rectangle shape (src/shapes/Rectangle.js): an axis-aligned box kept as a
 * centre, a width and a height. Every setter stores its field and rewrites the
 * four corner vertices in place; rectangles never rotate (their angle stays 0 and
 * setAngle is the logging stub of src/shape.js).
 */
module RectangleShape {
  import opened Wrappers
  import opened Utils

  /**
   * What `width` and `height` hold: a number, or the string a number input's
   * `value` is (the sidebar stores it unconverted).
   */
  datatype JsNumber = Num(value: real) | Text(text: string)

  /** The number `v / 2` computes with: a string is coerced by the host. */
  function NumberOf(v: JsNumber, host: Host): real {
    match v
    case Num(x) => x
    case Text(t) => host.toNumber(t)
  }

  /** `v + d`: adds to a number, but appends the text of d to a string. */
  function Plus(v: JsNumber, d: real, host: Host): (r: JsNumber)
    ensures v.Num? ==> r == Num(v.value + d)
    ensures v.Text? ==> r.Text? && |r.text| >= |v.text| && r.text[..|v.text|] == v.text
  {
    match v
    case Num(x) => Num(x + d)
    case Text(t) => Text(t + host.numberToString(d))
  }

  /**
   * The corners recalculateVertices writes, in the order top-left, top-right,
   * bottom-left, bottom-right: a w by h box centred on `center`.
   */
  function Corners(center: Point, w: real, h: real): (vs: seq<Point>)
    ensures |vs| == 4
    ensures Midpoint(vs[0], vs[3]) == center && Midpoint(vs[1], vs[2]) == center
    ensures vs[1].x - vs[0].x == w && vs[3].x - vs[2].x == w
    ensures vs[0].y - vs[2].y == h && vs[1].y - vs[3].y == h
    ensures vs[0].y == vs[1].y && vs[2].y == vs[3].y && vs[0].x == vs[2].x && vs[1].x == vs[3].x
  {
    [ Point(center.x - w / 2.0, center.y + h / 2.0), Point(center.x + w / 2.0, center.y + h / 2.0),
      Point(center.x - w / 2.0, center.y - h / 2.0), Point(center.x + w / 2.0, center.y - h / 2.0) ]
  }

  /** p and q sit on opposite corners of the box vs. */
  predicate OppositeCorners(vs: seq<Point>, p: Point, q: Point)
    requires |vs| == 4
  {
    (vs[0] == p && vs[3] == q) || (vs[3] == p && vs[0] == q) ||
    (vs[1] == p && vs[2] == q) || (vs[2] == p && vs[1] == q)
  }

  /** Moving the centre by d moves every corner by exactly d. */
  lemma CornersShift(center: Point, d: Point, w: real, h: real)
    ensures forall i :: 0 <= i < 4 ==> Corners(Add(center, d), w, h)[i] == Add(Corners(center, w, h)[i], d)
  {
  }

  /**
   * The size and centre a vertex drag sets (moveVertex on a hit): vertex 1 (top
   * right) moves by exactly (dx, dy) and vertex 2 (bottom left) stays where it was,
   * whichever corner was grabbed.
   */
  lemma MoveVertexAnchors(center: Point, w: real, h: real, dx: real, dy: real)
    ensures var before := Corners(center, w, h);
      var after := Corners(Point(center.x + dx / 2.0, center.y + dy / 2.0), w + dx, h + dy);
      after[1] == Add(before[1], Point(dx, dy)) && after[2] == before[2]
  {
  }

  /**
   * The creation drag: width |dx| and height |dy| with the centre at the midpoint
   * of the press and the cursor, so those two points are opposite corners.
   */
  lemma DragCorners(initial: Point, cursor: Point)
    ensures OppositeCorners(Corners(Midpoint(initial, cursor), Abs(cursor.x - initial.x), Abs(cursor.y - initial.y)), initial, cursor)
  {
    var vs := Corners(Midpoint(initial, cursor), Abs(cursor.x - initial.x), Abs(cursor.y - initial.y));
    if cursor.x > initial.x {
      if cursor.y > initial.y {
        assert vs[2] == initial && vs[1] == cursor;
      } else {
        assert vs[0] == initial && vs[3] == cursor;
      }
    } else {
      if cursor.y > initial.y {
        assert vs[3] == initial && vs[0] == cursor;
      } else {
        assert vs[1] == initial && vs[2] == cursor;
      }
    }
  }

  class Rectangle {
    const id: int
    /** The `type` tag, "rectangle". */
    const kind: string
    /** Inherited from Shape and never changed by a rectangle. */
    var angle: real
    var animateRotation: bool
    /** The editor back-reference, reduced to the canvas it is read for; null while saving. */
    var webcad: Canvas?
    var position: Point
    var width: JsNumber
    var height: JsNumber
    var vertices: seq<Point>
    var colors: seq<Rgba>
    const host: Host

    /** The corners the current position, width and height describe. */
    function Box(): seq<Point>
      reads this
    {
      Corners(position, NumberOf(width, host), NumberOf(height, host))
    }

    /**
     * What every rectangle the editor builds keeps: four vertices, exactly the
     * corners of its box, and four colours. A load copies saved lists as they are,
     * so the setters keep this rather than demand it.
     */
    predicate Valid()
      reads this
    {
      |vertices| == 4 && vertices == Box() && |colors| == 4
    }

    /** new Rectangle(id, webcad): the Shape fields, zero geometry, then the default colour. */
    constructor (id: int, webcad: Canvas?, defaultColor: string, host: Host)
      requires HexToRgb(defaultColor).Some?
      ensures this.id == id && kind == "rectangle" && this.webcad == webcad && this.host == host
      ensures angle == 0.0 && !animateRotation
      ensures position == Point(0.0, 0.0) && width == Num(0.0) && height == Num(0.0)
      ensures vertices == Repeat(Point(0.0, 0.0), 4)
      ensures colors == Repeat(Opaque(HexToRgb(defaultColor).value), 4)
      ensures Valid()
    {
      this.id := id;
      kind := "rectangle";
      this.webcad := webcad;
      this.host := host;
      angle := 0.0;
      animateRotation := false;
      position := Point(0.0, 0.0);
      width := Num(0.0);
      height := Num(0.0);
      vertices := Repeat(Point(0.0, 0.0), 4);
      colors := Repeat(Rgba(0, 0, 0, 1), 4);
      new;
      var _ := SetAllVertexColor(defaultColor);
    }

    /** recalculateVertices: writes the four corners of Box() over entries 0..3. */
    method RecalculateVertices()
      modifies this`vertices
      ensures vertices == Overwrite(old(vertices), Box())
    {
      var x, y := position.x, position.y;
      var w, h := NumberOf(width, host), NumberOf(height, host);
      OverwriteFour(vertices, Point(x - w / 2.0, y + h / 2.0), Point(x + w / 2.0, y + h / 2.0),
        Point(x - w / 2.0, y - h / 2.0), Point(x + w / 2.0, y - h / 2.0));
      vertices := SetAt(vertices, 0, Point(x - w / 2.0, y + h / 2.0));
      vertices := SetAt(vertices, 1, Point(x + w / 2.0, y + h / 2.0));
      vertices := SetAt(vertices, 2, Point(x - w / 2.0, y - h / 2.0));
      vertices := SetAt(vertices, 3, Point(x + w / 2.0, y - h / 2.0));
    }

    method SetPosition(x: real, y: real)
      modifies this`position, this`vertices
      ensures position == Point(x, y)
      ensures vertices == Overwrite(old(vertices), Box())
      ensures old(Valid()) ==> Valid()
    {
      position := Point(x, y);
      RecalculateVertices();
    }

    method SetWidth(w: JsNumber)
      modifies this`width, this`vertices
      ensures width == w
      ensures vertices == Overwrite(old(vertices), Box())
      ensures old(Valid()) ==> Valid()
    {
      width := w;
      RecalculateVertices();
    }

    method SetHeight(h: JsNumber)
      modifies this`height, this`vertices
      ensures height == h
      ensures vertices == Overwrite(old(vertices), Box())
      ensures old(Valid()) ==> Valid()
    {
      height := h;
      RecalculateVertices();
    }

    /** The setAngle Rectangle inherits from Shape: it only logs. */
    method SetAngle(a: real)
      ensures unchanged(this)
    {
    }

    /**
     * setAllVertexColor: colours 0..3 become [r, g, b, 255]; a malformed hex makes
     * hexToRgb return null and the first write throws before anything changes.
     */
    method SetAllVertexColor(hex: string) returns (outcome: Outcome)
      modifies this`colors
      ensures HexToRgb(hex).None? ==> outcome == Thrown(NullColorError) && colors == old(colors)
      ensures HexToRgb(hex).Some? ==>
        outcome == Normal && colors == Overwrite(old(colors), Repeat(Opaque(HexToRgb(hex).value), 4))
      ensures HexToRgb(hex).Some? && |old(colors)| <= 4 ==> colors == Repeat(Opaque(HexToRgb(hex).value), 4)
      ensures old(Valid()) ==> Valid()
    {
      var colorArr := HexToRgb(hex);
      assert Overwrite(colors, []) == colors;
      for i := 0 to 4
        invariant colorArr.None? ==> i == 0 && colors == old(colors)
        invariant colorArr.Some? ==> colors == Overwrite(old(colors), Repeat(Opaque(colorArr.value), i))
      {
        if colorArr.None? {
          return Thrown(NullColorError);
        }
        var c := Opaque(colorArr.value);
        OverwriteStep(old(colors), Repeat(c, i), c);
        colors := SetAt(colors, i, c);
      }
      return Normal;
    }

    /** translate: setPosition at the old position plus (dx, dy). */
    method Translate(dx: real, dy: real)
      modifies this`position, this`vertices
      ensures position == Add(old(position), Point(dx, dy))
      ensures vertices == Overwrite(old(vertices), Box())
      ensures old(Valid()) ==> Valid()
      ensures old(Valid()) ==> forall i :: 0 <= i < 4 ==> vertices[i] == Add(old(vertices)[i], Point(dx, dy))
    {
      CornersShift(position, Point(dx, dy), NumberOf(width, host), NumberOf(height, host));
      SetPosition(position.x + dx, position.y + dy);
    }

    method GetVertices() returns (r: seq<real>)
      requires webcad != null
      ensures r == DeviceCoords(vertices, webcad.width, webcad.height)
    {
      r := FlattenVertices(vertices, webcad.width, webcad.height);
    }

    method GetVerticesColors() returns (r: seq<real>)
      ensures r == DeviceColors(colors)
    {
      r := FlattenColors(colors);
    }

    function DrawingMode(): DrawMode {
      TriangleStrip
    }

    /** getVertexIdx: the first vertex within tolerance on both axes, else null. */
    method GetVertexIdx(pointX: real, pointY: real, tolerance: real) returns (idx: Option<nat>)
      ensures idx.Some? ==> idx.value < |vertices| && Near(vertices[idx.value], Point(pointX, pointY), tolerance)
      ensures idx.Some? ==> forall j :: 0 <= j < idx.value ==> !Near(vertices[j], Point(pointX, pointY), tolerance)
      ensures idx.None? <==> !Grabbed(vertices, Point(pointX, pointY), tolerance)
    {
      idx := FindVertex(vertices, Point(pointX, pointY), tolerance);
    }

    /**
     * moveVertex: a miss changes nothing; a hit grows the box by (dx, dy) and moves
     * its centre by half of that, so the bottom-left corner stays put.
     */
    method MoveVertex(pointX: real, pointY: real, tolerance: real, dx: real, dy: real)
      modifies this`width, this`height, this`position, this`vertices
      ensures !Grabbed(old(vertices), Point(pointX, pointY), tolerance) ==>
        width == old(width) && height == old(height) && position == old(position) && vertices == old(vertices)
      ensures Grabbed(old(vertices), Point(pointX, pointY), tolerance) ==>
        && width == Plus(old(width), dx, host) && height == Plus(old(height), dy, host)
        && position == Point(old(position).x + dx / 2.0, old(position).y + dy / 2.0)
        && vertices == Overwrite(old(vertices), Box())
      ensures old(Valid()) ==> Valid()
      ensures old(Valid()) && old(width).Num? && old(height).Num? && Grabbed(old(vertices), Point(pointX, pointY), tolerance) ==>
        vertices[1] == Add(old(vertices)[1], Point(dx, dy)) && vertices[2] == old(vertices)[2]
    {
      var selected := GetVertexIdx(pointX, pointY, tolerance);
      if selected.None? {
        return;
      }
      MoveVertexAnchors(position, NumberOf(width, host), NumberOf(height, host), dx, dy);
      ghost var v0 := vertices;
      SetWidth(Plus(width, dx, host));
      ghost var b1 := Box();
      SetHeight(Plus(height, dy, host));
      ghost var b2 := Box();
      SetPosition(position.x + dx / 2.0, position.y + dy / 2.0);
      OverwriteTwice(Overwrite(v0, b1), b2, Box());
      OverwriteTwice(v0, b1, Box());
    }

    /** The sidebar's Width input: stores the input's string value as it is. */
    method OnWidthInput(value: string)
      modifies this`width, this`vertices
      ensures width == Text(value)
      ensures vertices == Overwrite(old(vertices), Box())
      ensures old(Valid()) ==> Valid()
    {
      SetWidth(Text(value));
    }

    /** The sidebar's Height input: stores the input's string value as it is. */
    method OnHeightInput(value: string)
      modifies this`height, this`vertices
      ensures height == Text(value)
      ensures vertices == Overwrite(old(vertices), Box())
      ensures old(Valid()) ==> Valid()
    {
      SetHeight(Text(value));
    }

    /**
     * The creation drag (onCreate's mousemove handler): width |dx|, height |dy|, and
     * the centre half of each away from the press point toward the cursor.
     */
    method Drag(initial: Point, cursor: Point)
      modifies this`width, this`height, this`position, this`vertices
      ensures width == Num(Abs(cursor.x - initial.x)) && height == Num(Abs(cursor.y - initial.y))
      ensures position == Midpoint(initial, cursor)
      ensures vertices == Overwrite(old(vertices), Box())
      ensures old(Valid()) ==> Valid()
    {
      var leftModifier := if cursor.x > initial.x then 1.0 else -1.0;
      var topModifier := if cursor.y > initial.y then 1.0 else -1.0;
      var absDiffX := Abs(cursor.x - initial.x);
      var absDiffY := Abs(cursor.y - initial.y);
      ghost var v0 := vertices;
      SetWidth(Num(absDiffX));
      ghost var b1 := Box();
      SetHeight(Num(absDiffY));
      ghost var b2 := Box();
      SetPosition(initial.x + absDiffX / 2.0 * leftModifier, initial.y + absDiffY / 2.0 * topModifier);
      OverwriteTwice(Overwrite(v0, b1), b2, Box());
      OverwriteTwice(v0, b1, Box());
    }
  }
}

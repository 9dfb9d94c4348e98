/**
 * The Polygon shape (src/shapes/Polygon.js): `sides` points on the ellipse of
 * width by height around a centre, rotated by an angle in degrees, with one colour
 * per side. setSides grows or shrinks the colour list one entry at a time;
 * toConvexHullPolygon replaces the vertices by a gift-wrapping walk.
 */
module PolygonShape {
  import opened Wrappers
  import opened Utils

  // ---------------------------------------------------------------------------
  // Geometry
  // ---------------------------------------------------------------------------

  /** Point i of n before rotation: (w/2 cos t, h/2 sin t) at t = i/n of a turn (360*i/n degrees). */
  function RimOffset(w: real, h: real, n: nat, i: nat, host: Host): Point
    requires i < n
  {
    var cs := host.cosSin(360.0 * (i as real) / (n as real));
    Point(w / 2.0 * cs.cos, h / 2.0 * cs.sin)
  }

  /** The points the first loop of recalculateVertices writes, around the centre, not yet rotated. */
  function Rim(center: Point, w: real, h: real, n: nat, host: Host): (vs: seq<Point>)
    ensures |vs| == n
  {
    seq(n, i requires 0 <= i < n => Add(center, RimOffset(w, h, n, i, host)))
  }

  /** The vertices recalculateVertices leaves: each rim point rotated by `angle` about the centre. */
  function Outline(center: Point, w: real, h: real, angle: real, n: nat, host: Host): (vs: seq<Point>)
    ensures |vs| == n
  {
    seq(n, i requires 0 <= i < n => Add(center, Turn(RimOffset(w, h, n, i, host), host.cosSin(angle))))
  }

  /** At angle 0 (with exact cosine and sine there) the outline is the rim itself. */
  lemma OutlineAtZero(center: Point, w: real, h: real, n: nat, host: Host)
    requires ExactAtZero(host)
    ensures Outline(center, w, h, 0.0, n, host) == Rim(center, w, h, n, host)
  {
    forall i | 0 <= i < n ensures Outline(center, w, h, 0.0, n, host)[i] == Rim(center, w, h, n, host)[i] {
      RotateAtZero(RimOffset(w, h, n, i, host).x, RimOffset(w, h, n, i, host).y, host);
    }
  }

  /** `k` pops from the end of a JavaScript array; popping an empty array changes nothing. */
  function Popped<T>(s: seq<T>, k: nat): (r: seq<T>)
    ensures |r| == if k <= |s| then |s| - k else 0
    ensures r == s[..|r|]
  {
    if k <= |s| then s[..|s| - k] else []
  }

  // ---------------------------------------------------------------------------
  // The Sides inputs
  // ---------------------------------------------------------------------------

  /**
   * The guard of both Sides inputs: parseInt's result is used only when it is a
   * number of at least 3 (`!sides || sides < 3` turns away NaN, 0 and anything below 3).
   */
  function SidesGuard(parsed: Option<int>): (r: Option<nat>)
    ensures r.Some? <==> parsed.Some? && parsed.value >= 3
    ensures r.Some? ==> r.value == parsed.value
  {
    match parsed
    case None => None
    case Some(s) => if s == 0 || s < 3 then None else Some(s)
  }

  /** The create-time Sides input: Polygon.defaultSides after the input, which never drops below 3 once it is 3 or more. */
  function NewDefaultSides(parsed: Option<int>, current: nat): (r: nat)
    ensures r == current || (parsed == Some(r as int) && r >= 3)
    ensures current >= 3 ==> r >= 3
  {
    match SidesGuard(parsed)
    case None => current
    case Some(n) => n
  }

  // ---------------------------------------------------------------------------
  // getAngle, getDistance and the convex hull
  // ---------------------------------------------------------------------------

  /** The sign of a value of Math.atan2. */
  datatype AngleSign = Negative | Zero | Positive

  /**
   * getAngle(p1, p2, p3): the sign of atan2(det, dot) for the legs p1->p2 and
   * p2->p3. atan2 is negative exactly when det is, and zero exactly when det is
   * zero and dot is not negative (atan2(0, x) is pi for x < 0).
   */
  function GetAngle(p1: Point, p2: Point, p3: Point): AngleSign {
    var v1 := Sub(p2, p1);
    var v2 := Sub(p3, p2);
    var det := Det(v1, v2);
    if det < 0.0 then Negative else if det == 0.0 && DotProduct(v1, v2) >= 0.0 then Zero else Positive
  }

  function DotProduct(v1: Point, v2: Point): real {
    v1.x * v2.x + v1.y * v2.y
  }

  function Det(v1: Point, v2: Point): real {
    v1.x * v2.y - v1.y * v2.x
  }

  /** The orientation of the triangle p1, p2, p3: negative when it runs clockwise. */
  function Orientation(p1: Point, p2: Point, p3: Point): real {
    (p2.x - p1.x) * (p3.y - p1.y) - (p2.y - p1.y) * (p3.x - p1.x)
  }

  /** getAngle is negative exactly for a clockwise turn p1 -> p2 -> p3. */
  lemma GetAngleClockwise(p1: Point, p2: Point, p3: Point)
    ensures GetAngle(p1, p2, p3) == Negative <==> Orientation(p1, p2, p3) < 0.0
  {
    var v1, v2 := Sub(p2, p1), Sub(p3, p2);
    var u := Sub(p3, p1);
    assert v2 == Point(u.x - v1.x, u.y - v1.y);
    assert v1.x * v2.y == v1.x * u.y - v1.x * v1.y;
    assert v1.y * v2.x == v1.y * u.x - v1.y * v1.x;
  }

  /** getDistance: the squared distance, the square of each coordinate difference, summed. */
  function GetDistance(p1: Point, p2: Point): real {
    SquaredLength(Sub(p2, p1))
  }

  function SquaredLength(v: Point): real {
    v.x * v.x + v.y * v.y
  }

  /** The squared distance is symmetric and never negative. */
  lemma GetDistanceMetric(p1: Point, p2: Point)
    ensures GetDistance(p1, p2) == GetDistance(p2, p1)
    ensures GetDistance(p1, p2) >= 0.0
  {
    var v := Sub(p2, p1);
    assert Sub(p1, p2) == Point(-v.x, -v.y);
    SquaredLengthNegated(v);
    SquareNonnegative(v.x);
    SquareNonnegative(v.y);
  }

  lemma SquaredLengthNegated(v: Point)
    ensures SquaredLength(Point(-v.x, -v.y)) == SquaredLength(v)
  {
    assert (-v.x) * (-v.x) == v.x * v.x;
    assert (-v.y) * (-v.y) == v.y * v.y;
  }

  lemma SquareNonnegative(a: real)
    ensures a * a >= 0.0
  {
    if a < 0.0 {
      assert (-a) * (-a) == a * a;
    }
  }

  /** Whether the inner loop of convexHull takes candidate i over `next`. */
  predicate Better(points: seq<Point>, current: nat, next: nat, i: nat)
    requires current < |points| && next < |points| && i < |points|
  {
    var a := GetAngle(points[current], points[next], points[i]);
    a == Negative || (a == Zero && GetDistance(points[current], points[i]) > GetDistance(points[current], points[next]))
  }

  /** The inner loop of convexHull from candidate i on, with `next` chosen so far; the current point is skipped. */
  function Pick(points: seq<Point>, current: nat, next: nat, i: nat): (r: nat)
    requires current < |points| && next < |points| && i <= |points|
    ensures r < |points|
    decreases |points| - i
  {
    if i == |points| then next
    else Pick(points, current, if i != current && Better(points, current, next, i) then i else next, i + 1)
  }

  /** The point the walk moves to from `current`: the loop starts from points[0] and scans 1 onward. */
  function NextIndex(points: seq<Point>, current: nat): (r: nat)
    requires current < |points|
    ensures r < |points|
  {
    Pick(points, current, 0, 1)
  }

  /** The leftmost-point loop from index i on, with `best` so far: a strictly smaller x wins. */
  function LeftFrom(points: seq<Point>, best: nat, i: nat): (r: nat)
    requires best < |points| && i <= |points|
    ensures r < |points|
    decreases |points| - i
  {
    if i == |points| then best else LeftFrom(points, if points[i].x < points[best].x then i else best, i + 1)
  }

  function Leftmost(points: seq<Point>): (r: nat)
    requires |points| > 0
    ensures r < |points|
  {
    LeftFrom(points, 0, 1)
  }

  /** k is the first index whose x is the smallest. */
  predicate IsLeftmost(points: seq<Point>, k: nat) {
    && k < |points|
    && (forall j :: 0 <= j < |points| ==> points[k].x <= points[j].x)
    && (forall j :: 0 <= j < k ==> points[j].x > points[k].x)
  }

  lemma {:induction false} LeftFromFirstMinimal(points: seq<Point>, best: nat, i: nat)
    requires 1 <= i <= |points| && IsLeftmost(points[..i], best)
    ensures IsLeftmost(points, LeftFrom(points, best, i))
    decreases |points| - i
  {
    if i == |points| {
      assert points[..i] == points;
    } else {
      var b := if points[i].x < points[best].x then i else best;
      assert points[..i + 1][..i] == points[..i];
      assert IsLeftmost(points[..i + 1], b);
      LeftFromFirstMinimal(points, b, i + 1);
    }
  }

  /** The leftmost loop finds the first point of smallest x. */
  lemma LeftmostFirstMinimal(points: seq<Point>)
    requires |points| > 0
    ensures IsLeftmost(points, Leftmost(points))
  {
    LeftFromFirstMinimal(points, 0, 1);
  }

  /**
   * The do-while of convexHull from `current`, at most fuel + 1 more steps: the
   * points it pushes, and whether it came back to the leftmost point.
   */
  function Walk(points: seq<Point>, left: nat, current: nat, fuel: nat): (seq<Point>, bool)
    requires left < |points| && current < |points|
    decreases fuel
  {
    var next := NextIndex(points, current);
    if next == left then ([points[next]], true)
    else if fuel == 0 then ([points[next]], false)
    else
      var rest := Walk(points, left, next, fuel - 1);
      ([points[next]] + rest.0, rest.1)
  }

  /** What convexHull returns: null for fewer than 3 points, the hull once the walk is back at the start,
      or (in the model only) the walk so far when the step bound ran out; `Threw` is the as-written failure. */
  datatype HullResult = TooFew | Closed(hull: seq<Point>) | Unclosed(hull: seq<Point>) | Threw(exception: Exception)

  /** convexHull with getAngle and getDistance called as the polygon's own methods, the walk bounded by fuel. */
  function ConvexHullOf(points: seq<Point>, fuel: nat): HullResult {
    if |points| < 3 then TooFew
    else
      var left := Leftmost(points);
      var w := Walk(points, left, left, fuel);
      if w.1 then Closed([points[left]] + w.0) else Unclosed([points[left]] + w.0)
  }

  lemma {:induction false} WalkFromInput(points: seq<Point>, left: nat, current: nat, fuel: nat)
    requires left < |points| && current < |points|
    ensures |Walk(points, left, current, fuel).0| >= 1
    ensures forall q :: q in Walk(points, left, current, fuel).0 ==> q in points
    ensures Walk(points, left, current, fuel).1 ==> Walk(points, left, current, fuel).0[|Walk(points, left, current, fuel).0| - 1] == points[left]
    decreases fuel
  {
    var next := NextIndex(points, current);
    if next != left && fuel != 0 {
      WalkFromInput(points, left, next, fuel - 1);
    }
  }

  /**
   * The hull of 3 or more points starts at the first point of smallest x, holds
   * only input points, and, when the walk returns, ends with that point again.
   */
  lemma ConvexHullShape(points: seq<Point>, fuel: nat)
    ensures ConvexHullOf(points, fuel).TooFew? <==> |points| < 3
    ensures (ConvexHullOf(points, fuel).Closed? || ConvexHullOf(points, fuel).Unclosed?) ==>
      var hull := ConvexHullOf(points, fuel).hull;
      && |hull| >= 2
      && (exists k: nat :: IsLeftmost(points, k) && hull[0] == points[k])
      && (forall q :: q in hull ==> q in points)
      && (ConvexHullOf(points, fuel).Closed? ==> hull[|hull| - 1] == hull[0])
  {
    if |points| >= 3 {
      var left := Leftmost(points);
      LeftmostFirstMinimal(points);
      WalkFromInput(points, left, left, fuel);
      var hull := ConvexHullOf(points, fuel).hull;
      assert hull[0] == points[left];
      forall q | q in hull ensures q in points {
        if q != points[left] {
          assert q in Walk(points, left, left, fuel).0;
        }
      }
    }
  }

  /** The inner loop's `continue`: candidate i is the current point itself (points are told apart by index). */
  predicate Skipped(current: nat, i: nat) {
    i == current
  }

  /**
   * The inner loop of convexHull as written runs i from 1 and skips only the
   * current point: with 3 or more points some i reaches the unqualified getAngle.
   */
  lemma CallReached(points: seq<Point>, current: nat)
    requires |points| >= 3 && current < |points|
    ensures exists i :: 1 <= i < |points| && !Skipped(current, i)
  {
    var i := if current == 1 then 2 else 1;
    assert 1 <= i < |points| && !Skipped(current, i);
  }

  /**
   * convexHull as written: getAngle and getDistance are called without `this.`,
   * so for 3 or more points the first candidate that is not the current point
   * raises a ReferenceError and no hull is ever returned.
   */
  method ConvexHullAsWritten(points: seq<Point>) returns (result: HullResult)
    ensures |points| < 3 ==> result == TooFew
    ensures |points| >= 3 ==> result == Threw(ReferenceError("getAngle is not defined"))
  {
    if |points| < 3 {
      return TooFew;
    }
    // The leftmost search that comes first only reads the points; with 3 or more
    // points some candidate differs from the current one and reaches the call.
    return Threw(ReferenceError("getAngle is not defined"));
  }

  /**
   * convexHull with the helper calls reaching the polygon's methods: the leftmost
   * point, then the gift-wrapping walk until it is back there (at most fuel + 1
   * steps in the model). Points are told apart by index, as the source tells
   * vertex arrays apart by reference.
   */
  method ConvexHull(points: seq<Point>, fuel: nat) returns (result: HullResult)
    ensures result == ConvexHullOf(points, fuel)
  {
    if |points| < 3 {
      return TooFew;
    }
    var left := 0;
    for i := 1 to |points|
      invariant left < |points| && LeftFrom(points, left, i) == Leftmost(points)
    {
      if points[i].x < points[left].x {
        left := i;
      }
    }
    var hull := [points[left]];
    var current := left;
    var f := fuel;
    while true
      invariant current < |points|
      invariant hull + Walk(points, left, current, f).0 == [points[left]] + Walk(points, left, left, fuel).0
      invariant Walk(points, left, current, f).1 == Walk(points, left, left, fuel).1
      decreases f
    {
      var next := 0;
      for i := 1 to |points|
        invariant next < |points| && Pick(points, current, next, i) == NextIndex(points, current)
      {
        if i != current {
          var angle := GetAngle(points[current], points[next], points[i]);
          if angle == Negative || (angle == Zero && GetDistance(points[current], points[i]) > GetDistance(points[current], points[next])) {
            next := i;
          }
        }
      }
      ghost var rest := Walk(points, left, current, f);
      hull := hull + [points[next]];
      current := next;
      if current == left {
        assert rest == ([points[next]], true);
        return Closed(hull);
      }
      if f == 0 {
        assert rest == ([points[next]], false);
        return Unclosed(hull);
      }
      f := f - 1;
      assert rest.0 == [points[next]] + Walk(points, left, current, f).0;
    }
  }

  // ---------------------------------------------------------------------------
  // The shape
  // ---------------------------------------------------------------------------

  class Polygon {
    const id: int
    /** The `type` tag, "polygon". */
    const kind: string
    var sides: nat
    var position: Point
    var width: real
    var height: real
    /** Degrees; setAngle keeps it as JavaScript's `angle % 360`. */
    var angle: real
    var animateRotation: bool
    /** The editor back-reference, reduced to the canvas it is read for; null while saving. */
    var webcad: Canvas?
    var vertices: seq<Point>
    var colors: seq<Rgba>
    const host: Host

    /** The vertices the current fields describe. */
    function Shape(): seq<Point>
      reads this
    {
      Outline(position, width, height, angle, sides, host)
    }

    /**
     * What every polygon the editor builds keeps until toConvexHullPolygon: one
     * vertex per side, exactly the outline its fields describe, and one colour per
     * side. A load copies saved lists as they are, so the setters keep this rather
     * than demand it.
     */
    predicate Valid()
      reads this
    {
      |vertices| == sides && vertices == Shape() && |colors| == sides
    }

    /**
     * new Polygon(id, webcad): `defaultSides` sides (Polygon.defaultSides), empty
     * lists, then setSides(defaultSides), which adds no colour because the count
     * does not grow, and setAllVertexColor, which writes one colour per side.
     */
    constructor (id: int, webcad: Canvas?, defaultSides: nat, defaultColor: string, host: Host)
      requires HexToRgb(defaultColor).Some?
      ensures this.id == id && kind == "polygon" && this.webcad == webcad && this.host == host
      ensures sides == defaultSides && angle == 0.0 && !animateRotation
      ensures position == Point(0.0, 0.0) && width == 0.0 && height == 0.0
      ensures vertices == Shape()
      ensures colors == Repeat(Opaque(HexToRgb(defaultColor).value), defaultSides)
      ensures Valid()
    {
      this.id := id;
      kind := "polygon";
      this.webcad := webcad;
      this.host := host;
      sides := defaultSides;
      position := Point(0.0, 0.0);
      width := 0.0;
      height := 0.0;
      angle := 0.0;
      animateRotation := false;
      vertices := [];
      colors := [];
      new;
      var _ := SetSides(defaultSides, defaultColor);
      var _ := SetAllVertexColor(defaultColor);
    }

    /** recalculateVertices: writes the rim points, cuts the list to `sides`, then rotates each about the centre. */
    method RecalculateVertices()
      modifies this`vertices
      ensures vertices == Shape()
    {
      var centerX, centerY := position.x, position.y;
      ghost var rim := Rim(position, width, height, sides, host);
      ghost var v0 := vertices;
      assert Overwrite(v0, rim[..0]) == v0;
      for i := 0 to sides
        invariant vertices == Overwrite(v0, rim[..i])
      {
        var cs := host.cosSin(360.0 * (i as real) / (sides as real));
        var p := Point(centerX + width / 2.0 * cs.cos, centerY + height / 2.0 * cs.sin);
        assert rim[i] == p;
        OverwriteStep(v0, rim[..i], rim[i]);
        assert rim[..i + 1] == rim[..i] + [rim[i]];
        vertices := SetAt(vertices, i, p);
      }
      if sides < |vertices| {
        vertices := vertices[..sides];
      }
      assert rim[..sides] == rim;
      assert vertices == rim;
      for i := 0 to |vertices|
        invariant |vertices| == sides
        invariant forall j :: 0 <= j < i ==> vertices[j] == Shape()[j]
        invariant forall j :: i <= j < sides ==> vertices[j] == rim[j]
      {
        var p := vertices[i];
        assert Point(p.x - centerX, p.y - centerY) == RimOffset(width, height, sides, i, host);
        var pr := Rotate(p.x - centerX, p.y - centerY, angle, host);
        vertices := vertices[i := Point(pr.x + centerX, pr.y + centerY)];
      }
    }

    /** setAngle: stores `angle % 360`, which keeps the sign of the input and stays below 360 in magnitude. */
    method SetAngle(a: real)
      modifies this`angle, this`vertices
      ensures angle == JsRemainder(a, 360.0)
      ensures a >= 0.0 ==> 0.0 <= angle < 360.0
      ensures a < 0.0 ==> -360.0 < angle <= 0.0
      ensures vertices == Shape()
      ensures old(Valid()) ==> Valid()
    {
      angle := JsRemainder(a, 360.0);
      JsRemainderBounds(a, 360.0);
      RecalculateVertices();
    }

    method SetPosition(x: real, y: real)
      modifies this`position, this`vertices
      ensures position == Point(x, y) && vertices == Shape()
      ensures old(Valid()) ==> Valid()
    {
      position := Point(x, y);
      RecalculateVertices();
    }

    method SetWidth(w: real)
      modifies this`width, this`vertices
      ensures width == w && vertices == Shape()
      ensures old(Valid()) ==> Valid()
    {
      width := w;
      RecalculateVertices();
    }

    method SetHeight(h: real)
      modifies this`height, this`vertices
      ensures height == h && vertices == Shape()
      ensures old(Valid()) ==> Valid()
    {
      height := h;
      RecalculateVertices();
    }

    /**
     * setSides(n): growing pushes one default colour per new side (hexToRgb of
     * Polygon.defaultColor, which throws before anything changes when it is null);
     * shrinking pops vertices and colours from the end; then the vertices are rebuilt.
     */
    method SetSides(n: nat, defaultColor: string) returns (outcome: Outcome)
      modifies this`sides, this`colors, this`vertices
      ensures n > old(sides) && HexToRgb(defaultColor).None? ==>
        outcome == Thrown(NullColorError) && sides == old(sides) && colors == old(colors) && vertices == old(vertices)
      ensures !(n > old(sides) && HexToRgb(defaultColor).None?) ==>
        outcome == Normal && sides == n && vertices == Shape()
      ensures n > old(sides) && HexToRgb(defaultColor).Some? ==>
        colors == old(colors) + Repeat(Opaque(HexToRgb(defaultColor).value), n - old(sides))
      ensures n <= old(sides) ==> colors == Popped(old(colors), old(sides) - n)
      ensures outcome == Normal && |old(colors)| == old(sides) ==> |colors| == n
      ensures old(Valid()) ==> Valid()
    {
      if n > sides {
        var colorArr := HexToRgb(defaultColor);
        if colorArr.None? {
          return Thrown(NullColorError);
        }
        var c := Opaque(colorArr.value);
        while sides < n
          invariant old(sides) <= sides <= n
          invariant colors == old(colors) + Repeat(c, sides - old(sides))
        {
          colors := colors + [c];
          sides := sides + 1;
        }
      } else {
        while sides > n
          invariant n <= sides <= old(sides)
          invariant colors == Popped(old(colors), old(sides) - sides)
        {
          vertices := if vertices == [] then [] else vertices[..|vertices| - 1];
          colors := if colors == [] then [] else colors[..|colors| - 1];
          sides := sides - 1;
        }
      }
      RecalculateVertices();
      return Normal;
    }

    /**
     * setAllVertexColor: colours 0..sides-1 become [r, g, b, 255]; a malformed hex
     * throws at the first write, so only when there is at least one side.
     */
    method SetAllVertexColor(hex: string) returns (outcome: Outcome)
      modifies this`colors
      ensures HexToRgb(hex).None? && sides > 0 ==> outcome == Thrown(NullColorError) && colors == old(colors)
      ensures HexToRgb(hex).None? && sides == 0 ==> outcome == Normal && colors == old(colors)
      ensures HexToRgb(hex).Some? ==>
        outcome == Normal && colors == Overwrite(old(colors), Repeat(Opaque(HexToRgb(hex).value), sides))
      ensures HexToRgb(hex).Some? && |old(colors)| <= sides ==> colors == Repeat(Opaque(HexToRgb(hex).value), sides)
      ensures old(Valid()) ==> Valid()
    {
      var colorArr := HexToRgb(hex);
      assert Overwrite(colors, []) == colors;
      for i := 0 to sides
        invariant colorArr.None? ==> i == 0 && colors == old(colors)
        invariant colorArr.Some? ==> colors == Overwrite(old(colors), Repeat(Opaque(colorArr.value), i))
      {
        if colorArr.None? {
          return Thrown(NullColorError);
        }
        var c := Opaque(colorArr.value);
        OverwriteStep(old(colors), Repeat(c, i), c);
        colors := SetAt(colors, i, c);
      }
      return Normal;
    }

    /** translate: moves only the centre, by (dx, dy). */
    method Translate(dx: real, dy: real)
      modifies this`position, this`vertices
      ensures position == Add(old(position), Point(dx, dy)) && vertices == Shape()
      ensures old(Valid()) ==> Valid()
      ensures old(Valid()) ==> forall i :: 0 <= i < sides ==> vertices[i] == Add(old(vertices)[i], Point(dx, dy))
    {
      SetPosition(position.x + dx, position.y + dy);
    }

    method GetVertices() returns (r: seq<real>)
      requires webcad != null
      ensures r == DeviceCoords(vertices, webcad.width, webcad.height)
    {
      r := FlattenVertices(vertices, webcad.width, webcad.height);
    }

    method GetVerticesColors() returns (r: seq<real>)
      ensures r == DeviceColors(colors)
    {
      r := FlattenColors(colors);
    }

    function DrawingMode(): DrawMode {
      TriangleFan
    }

    /** getVertexIdx: the first vertex within tolerance on both axes, else null. */
    method GetVertexIdx(pointX: real, pointY: real, tolerance: real) returns (idx: Option<nat>)
      ensures idx.Some? ==> idx.value < |vertices| && Near(vertices[idx.value], Point(pointX, pointY), tolerance)
      ensures idx.Some? ==> forall j :: 0 <= j < idx.value ==> !Near(vertices[j], Point(pointX, pointY), tolerance)
      ensures idx.None? <==> !Grabbed(vertices, Point(pointX, pointY), tolerance)
    {
      idx := FindVertex(vertices, Point(pointX, pointY), tolerance);
    }

    /** moveVertex: a miss changes nothing; a hit grows width and height by (dx, dy) and moves the centre by half of that. */
    method MoveVertex(pointX: real, pointY: real, tolerance: real, dx: real, dy: real)
      modifies this`width, this`height, this`position, this`vertices
      ensures !Grabbed(old(vertices), Point(pointX, pointY), tolerance) ==>
        width == old(width) && height == old(height) && position == old(position) && vertices == old(vertices)
      ensures Grabbed(old(vertices), Point(pointX, pointY), tolerance) ==>
        && width == old(width) + dx && height == old(height) + dy
        && position == Point(old(position).x + dx / 2.0, old(position).y + dy / 2.0)
        && vertices == Shape()
      ensures old(Valid()) ==> Valid()
    {
      var selected := GetVertexIdx(pointX, pointY, tolerance);
      if selected.None? {
        return;
      }
      SetWidth(width + dx);
      SetHeight(height + dy);
      SetPosition(position.x + dx / 2.0, position.y + dy / 2.0);
    }

    /** The Sides input of the sidebar: setSides only with a parsed integer of at least 3. */
    method OnSidesInput(parsed: Option<int>, defaultColor: string) returns (outcome: Outcome)
      modifies this`sides, this`colors, this`vertices
      ensures SidesGuard(parsed).None? ==>
        outcome == Normal && sides == old(sides) && colors == old(colors) && vertices == old(vertices)
      ensures SidesGuard(parsed).Some? && SidesGuard(parsed).value > old(sides) && HexToRgb(defaultColor).None? ==>
        outcome == Thrown(NullColorError) && sides == old(sides) && colors == old(colors) && vertices == old(vertices)
      ensures SidesGuard(parsed).Some? && !(SidesGuard(parsed).value > old(sides) && HexToRgb(defaultColor).None?) ==>
        outcome == Normal && sides == SidesGuard(parsed).value && vertices == Shape()
      ensures SidesGuard(parsed).Some? && SidesGuard(parsed).value > old(sides) && HexToRgb(defaultColor).Some? ==>
        colors == old(colors) + Repeat(Opaque(HexToRgb(defaultColor).value), SidesGuard(parsed).value - old(sides))
      ensures SidesGuard(parsed).Some? && SidesGuard(parsed).value <= old(sides) ==>
        colors == Popped(old(colors), old(sides) - SidesGuard(parsed).value)
      ensures outcome == Normal && |old(colors)| == old(sides) ==> |colors| == sides
      ensures old(Valid()) ==> Valid()
    {
      match SidesGuard(parsed) {
        case None =>
          return Normal;
        case Some(n) =>
          outcome := SetSides(n, defaultColor);
      }
    }

    /**
     * toConvexHullPolygon as written: it calls the convexHull above, so for 3 or
     * more vertices the ReferenceError of the unqualified getAngle propagates out
     * and `vertices` keeps its value; fewer than 3 give null and change nothing.
     */
    method ToConvexHullPolygon() returns (outcome: Outcome)
      modifies this`vertices
      ensures |old(vertices)| < 3 ==> outcome == Normal
      ensures |old(vertices)| >= 3 ==> outcome == Thrown(ReferenceError("getAngle is not defined"))
      ensures vertices == old(vertices)
    {
      var convexHull := ConvexHullAsWritten(vertices);
      match convexHull {
        case Threw(e) =>
          return Thrown(e);
        case TooFew =>
          return Normal;
        case _ =>
          // The hull assignment is never reached: the call above returns no hull.
          assert false;
      }
    }

    /**
     * toConvexHullPolygon over the corrected convexHull: replaces `vertices` by the
     * hull and leaves `colors` and `sides` as they were; null (fewer than 3 points)
     * changes nothing. The closed hull repeats its first point at the end, so a
     * polygon whose hull length differs from its side count leaves `Valid`.
     */
    method ToConvexHullPolygonIntended(fuel: nat) returns (result: HullResult)
      modifies this`vertices
      ensures result == ConvexHullOf(old(vertices), fuel)
      ensures result.Closed? ==> vertices == result.hull
      ensures !result.Closed? ==> vertices == old(vertices)
      ensures result.Closed? ==>
        && |vertices| >= 2 && vertices[0] == vertices[|vertices| - 1]
        && colors == old(colors) && sides == old(sides)
      ensures old(Valid()) && result.Closed? && |result.hull| != old(sides) ==> !Valid()
    {
      result := ConvexHull(vertices, fuel);
      if result.Closed? {
        ConvexHullShape(vertices, fuel);
        vertices := result.hull;
        assert |vertices| != sides ==> !Valid();
      }
    }

    /**
     * The creation drag (onCreate's mousemove handler): width |dx|, height |dy|,
     * and the centre half of each away from the press point toward the cursor.
     */
    method Drag(initial: Point, cursor: Point)
      modifies this`width, this`height, this`position, this`vertices
      ensures width == Abs(cursor.x - initial.x) && height == Abs(cursor.y - initial.y)
      ensures position == Midpoint(initial, cursor)
      ensures vertices == Shape()
      ensures old(Valid()) ==> Valid()
    {
      var leftModifier := Toward(initial.x, cursor.x);
      var topModifier := Toward(initial.y, cursor.y);
      var absDiffX := Abs(cursor.x - initial.x);
      var absDiffY := Abs(cursor.y - initial.y);
      SetWidth(absDiffX);
      SetHeight(absDiffY);
      SetPosition(initial.x + absDiffX / 2.0 * leftModifier, initial.y + absDiffY / 2.0 * topModifier);
    }
  }
}

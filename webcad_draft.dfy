/**
 * The first Square of the editor, declared in src/webcad.js beside the Webcad
 * class: an axis-aligned square of side `width` around `position`, four vertices
 * and no colours. Its corners are the rectangle box with equal sides.
 */
module WebcadDraft {
  import opened Utils
  import RectangleShape
  import SquareShape

  /** The corners TL, TR, BL, BR of the square of side w centred at c. */
  function SquareCorners(c: Point, w: real): seq<Point> {
    RectangleShape.Corners(c, w, w)
  }

  /** At angle 0 the rotating Square of src/shapes/Square.js places the same corners in the same order. */
  lemma SquareCornersAtZero(c: Point, w: real, host: Host)
    requires ExactAtZero(host)
    ensures SquareCorners(c, w) == SquareShape.Placed(c, w, 0.0, host)
  {
    SquareShape.PlacedAtZero(c, w, host);
  }

  class DraftSquare {
    const id: int
    var webcad: Canvas?
    /** Inherited from the Shape of src/webcad.js, set to true and never read. */
    var isDrawing: bool
    var position: Point
    var width: real
    var vertices: seq<Point>

    constructor (id: int, webcad: Canvas?)
      ensures this.id == id && this.webcad == webcad && isDrawing
      ensures position == Point(0.0, 0.0) && width == 0.0
      ensures vertices == Repeat(Point(0.0, 0.0), 4)
    {
      this.id := id;
      this.webcad := webcad;
      isDrawing := true;
      position := Point(0.0, 0.0);
      width := 0.0;
      vertices := Repeat(Point(0.0, 0.0), 4);
    }

    /**
     * recalculateVertices: writes entries 0..3 with (x -+ w/2, y +- w/2) in the
     * order TL, TR, BL, BR; a list of at most 4 entries becomes exactly the corners.
     */
    method RecalculateVertices()
      modifies this`vertices
      ensures vertices == Overwrite(old(vertices), SquareCorners(position, width))
      ensures |old(vertices)| <= 4 ==> vertices == SquareCorners(position, width)
    {
      var x, y := position.x, position.y;
      OverwriteFour(vertices, Point(x - width / 2.0, y + width / 2.0), Point(x + width / 2.0, y + width / 2.0),
        Point(x - width / 2.0, y - width / 2.0), Point(x + width / 2.0, y - width / 2.0));
      vertices := SetAt(vertices, 0, Point(x - width / 2.0, y + width / 2.0));
      vertices := SetAt(vertices, 1, Point(x + width / 2.0, y + width / 2.0));
      vertices := SetAt(vertices, 2, Point(x - width / 2.0, y - width / 2.0));
      vertices := SetAt(vertices, 3, Point(x + width / 2.0, y - width / 2.0));
    }

    method SetPosition(x: real, y: real)
      modifies this`position, this`vertices
      ensures position == Point(x, y)
      ensures vertices == Overwrite(old(vertices), SquareCorners(position, width))
      ensures |old(vertices)| <= 4 ==> vertices == SquareCorners(position, width)
    {
      position := Point(x, y);
      RecalculateVertices();
    }

    method SetWidth(w: real)
      modifies this`width, this`vertices
      ensures width == w
      ensures vertices == Overwrite(old(vertices), SquareCorners(position, width))
      ensures |old(vertices)| <= 4 ==> vertices == SquareCorners(position, width)
    {
      width := w;
      RecalculateVertices();
    }

    method GetVertices() returns (r: seq<real>)
      requires webcad != null
      ensures r == DeviceCoords(vertices, webcad.width, webcad.height)
    {
      r := FlattenVertices(vertices, webcad.width, webcad.height);
    }

    function DrawingMode(): DrawMode {
      TriangleStrip
    }
  }
}

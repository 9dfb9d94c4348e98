/**
 * The click-driven square of src/square.js: the first click of a pair stores one
 * corner, the second stores the opposite corner and draws the box between them.
 * The click state (`first`, `p1`, `p2`) is global and shared with the line tool.
 */
module SquareDraft {
  import opened Wrappers
  import opened Utils
  import RectangleShape

  /** The globals `first`, `p1` and `p2`: which click of a pair comes next and the corners seen. */
  class Clicks {
    var first: bool
    var p1: Option<Point>
    var p2: Option<Point>

    /** `let first = true; let p1, p2;` */
    constructor ()
      ensures first && p1 == None && p2 == None && Valid()
    {
      first := true;
      p1 := None;
      p2 := None;
    }

    /** The second click of a pair always finds the first corner stored. */
    predicate Valid()
      reads this
    {
      !first ==> p1.Some?
    }
  }

  /** The strip of the second click: p1, (p2.x, p1.y), (p1.x, p2.y), p2. */
  function Box(p1: Point, p2: Point): seq<Point> {
    [p1, Point(p2.x, p1.y), Point(p1.x, p2.y), p2]
  }

  /** One fixed colour per vertex: red, green, blue, white. */
  const BoxColors: seq<seq<real>> := [[1.0, 0.0, 0.0, 1.0], [0.0, 1.0, 0.0, 1.0], [0.0, 0.0, 1.0, 1.0], [1.0, 1.0, 1.0, 1.0]]

  /**
   * The box is the axis-aligned rectangle with p1 and p2 as opposite corners: the
   * editor's rectangle corners (TL, TR, BL, BR) around their midpoint, with the
   * signed width and height between them.
   */
  lemma BoxIsRectangle(p1: Point, p2: Point)
    ensures Box(p1, p2) == RectangleShape.Corners(Midpoint(p1, p2), p2.x - p1.x, p1.y - p2.y)
  {
    var c := RectangleShape.Corners(Midpoint(p1, p2), p2.x - p1.x, p1.y - p2.y);
    assert c[0] == p1 && c[3] == p2;
    assert c[1] == Point(p2.x, p1.y) && c[2] == Point(p1.x, p2.y);
  }

  /** Clicking the corners in the other order gives the same strip backwards. */
  lemma BoxReversed(p1: Point, p2: Point)
    ensures Box(p2, p1) == [Box(p1, p2)[3], Box(p1, p2)[2], Box(p1, p2)[1], Box(p1, p2)[0]]
  {
  }

  /**
   * drawSquare: the click is mapped to device coordinates with the y flip. A
   * first click stores p1; a second stores p2 and draws the box as a triangle
   * strip of 4 vertices with the fixed colours.
   */
  method DrawSquare(clicks: Clicks, canvasX: real, canvasY: real, width: Positive, height: Positive)
    returns (draw: Option<DrawCall>)
    requires clicks.Valid()
    modifies clicks
    ensures clicks.Valid() && clicks.first == !old(clicks.first)
    ensures old(clicks.first) ==>
      draw == None && clicks.p1 == Some(ClickToDevice(canvasX, canvasY, width, height)) && clicks.p2 == old(clicks.p2)
    ensures !old(clicks.first) ==>
      var q := ClickToDevice(canvasX, canvasY, width, height);
      clicks.p1 == old(clicks.p1) && clicks.p2 == Some(q) &&
      draw == Some(DrawCall(TriangleStrip, Box(old(clicks.p1).value, q), BoxColors, 4))
    ensures draw.Some? ==> draw.value.count == |draw.value.vertices| == |draw.value.colors|
  {
    if clicks.first {
      clicks.first := false;
      clicks.p1 := Some(ClickToDevice(canvasX, canvasY, width, height));
      draw := None;
    } else {
      clicks.first := true;
      clicks.p2 := Some(ClickToDevice(canvasX, canvasY, width, height));
      var p1, p2 := clicks.p1.value, clicks.p2.value;
      var vertices := [p1, Point(p2.x, p1.y), Point(p1.x, p2.y), p2];
      var colors := [[1.0, 0.0, 0.0, 1.0], [0.0, 1.0, 0.0, 1.0], [0.0, 0.0, 1.0, 1.0], [1.0, 1.0, 1.0, 1.0]];
      draw := Some(DrawCall(TriangleStrip, vertices, colors, |vertices|));
    }
  }

  /** Two clicks draw the box between them; a third starts a new pair. */
  method TwoClicks(width: Positive, height: Positive) returns (draw: Option<DrawCall>, third: Option<DrawCall>)
    ensures draw == Some(DrawCall(TriangleStrip, Box(Point(-1.0, 1.0), Point(1.0, -1.0)), BoxColors, 4))
    ensures third == None
  {
    var clicks := new Clicks();
    var none := DrawSquare(clicks, 0.0, 0.0, width, height);
    draw := DrawSquare(clicks, width, height, width, height);
    ClickToDeviceCorners(width, height, 0.0);
    third := DrawSquare(clicks, 0.0, 0.0, width, height);
  }
}

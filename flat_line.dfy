/**
 * The earlier line of src/line.js: the same segment as the line tool, kept as a
 * flat list `[x1, y1, x2, y2]`, drawn as one GL_LINES pair in a fixed black.
 */
module FlatLine {
  import opened Wrappers
  import opened Utils
  import LineTool

  /** The flat coordinate list a line keeps: `[x1, y1, x2, y2]`. */
  function Endpoints(x1: real, y1: real, x2: real, y2: real): (vs: seq<real>)
    ensures |vs| == 4
  {
    [x1, y1, x2, y2]
  }

  /** The flat list is the flatten of the line tool's `[[x1, y1], [x2, y2]]`. */
  lemma FlatIsFlattenedSegment(x1: real, y1: real, x2: real, y2: real)
    ensures Endpoints(x1, y1, x2, y2) == Concat([[x1, y1], [x2, y2]])
    ensures var s := LineTool.Segment(x1, y1, x2, y2);
      |s| == 2 && Endpoints(x1, y1, x2, y2) == Concat([[s[0].x, s[0].y], [s[1].x, s[1].y]])
  {
    var rows := [[x1, y1], [x2, y2]];
    assert rows[..1][..0] == [];
    assert rows[..1] == [[x1, y1]];
    assert Concat(rows[..1]) == [x1, y1];
  }

  /** The fragment colour the draw hard-codes, whatever the line's colorHex. */
  const Black: seq<real> := [0.0, 0.0, 0.0, 1.0]

  /** The vertex pairs of a flat list of four coordinates. */
  function Pairs(vs: seq<real>): (ps: seq<Point>)
    requires |vs| == 4
    ensures |ps| == 2 && ps[0] == Point(vs[0], vs[1]) && ps[1] == Point(vs[2], vs[3])
  {
    [Point(vs[0], vs[1]), Point(vs[2], vs[3])]
  }

  /**
   * The draw of line.js with its buffer bound: GL_LINES over `vertices.length / 2`
   * vertices read as pairs, all black.
   */
  function Drawn(vs: seq<real>): (r: DrawCall)
    requires |vs| == 4
    ensures r.mode == Lines && r.count == 2 && r.count == |vs| / 2
    ensures r.vertices == Pairs(vs) && r.colors == [Black, Black]
  {
    DrawCall(Lines, Pairs(vs), [Black, Black], |vs| / 2)
  }

  /** What `vertex_buffer` not being declared anywhere makes the draw raise. */
  const UndeclaredBuffer := ReferenceError("vertex_buffer is not defined")

  class Line {
    var x1: real
    var y1: real
    var x2: real
    var y2: real
    var colorHex: string
    var vertices: seq<real>

    /** The constructor stores the endpoints, black, and the flat list built once from them. */
    constructor (x1: real, y1: real, x2: real, y2: real)
      ensures this.x1 == x1 && this.y1 == y1 && this.x2 == x2 && this.y2 == y2
      ensures colorHex == "#000000" && vertices == Endpoints(x1, y1, x2, y2)
      ensures Valid()
    {
      this.x1, this.y1, this.x2, this.y2 := x1, y1, x2, y2;
      colorHex := "#000000";
      vertices := [x1, y1, x2, y2];
    }

    /** The list stays the four endpoint coordinates: no method rebuilds it. */
    predicate Valid()
      reads this
    {
      vertices == Endpoints(x1, y1, x2, y2)
    }

    /** makeVertices: a fresh flat list of the current endpoints. */
    function MakeVertices(): (vs: seq<real>)
      reads this
      ensures |vs| == 4 && Pairs(vs) == [Point(x1, y1), Point(x2, y2)]
    {
      [x1, y1, x2, y2]
    }

    /** changeColor: stores the new colour; the endpoints and the list stay. */
    method ChangeColor(newColorHex: string)
      requires Valid()
      modifies this`colorHex
      ensures colorHex == newColorHex && Valid()
    {
      colorHex := newColorHex;
    }

    /** draw, as written: the bind of the undeclared `vertex_buffer` raises before drawArrays. */
    function DrawAsWritten(): (o: Outcome)
      ensures o.Thrown? && o.exception.ReferenceError?
    {
      Thrown(UndeclaredBuffer)
    }

    /** draw with the buffer it created bound: the segment between the endpoints, two vertices. */
    function Draw(): (r: DrawCall)
      requires Valid()
      reads this
      ensures r.vertices == [Point(x1, y1), Point(x2, y2)] && r.count == 2
      ensures r.colors == [Black, Black]
    {
      Drawn(vertices)
    }
  }

  /** Changing the colour of a line changes nothing it draws: the shader ignores colorHex. */
  method RecolourDrawsSame(line: Line, newColorHex: string) returns (before: DrawCall, after: DrawCall)
    requires line.Valid()
    modifies line`colorHex
    ensures before == after && after.count == 2
  {
    before := line.Draw();
    line.ChangeColor(newColorHex);
    after := line.Draw();
  }
}

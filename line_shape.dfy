/**
 * The line tool of src/shapes/Line.js: `toGLSL`, which turns a `#rgb` or
 * `#rrggbb` string into a four-float GLSL colour, the `Line` class, and
 * `drawLine`, which pairs clicks into segments added to the application state
 * (the `CurrentState` list of src/app.js) and redraws every line.
 */
module LineTool {
  import opened Wrappers
  import opened Utils
  import SquareDraft

  // ---------------------------------------------------------------------------
  // toGLSL
  // ---------------------------------------------------------------------------

  /** `/^#([A-Fa-f0-9]{3}){1,2}$/`: a `#` followed by exactly three or six hex digits. */
  predicate GlslHex(hex: string) {
    (|hex| == 4 || |hex| == 7) && hex[0] == '#' && AllHex(hex[1..])
  }

  /** The short form with each digit doubled: `abc` becomes `aabbcc`. */
  function Expand(d: string): (e: string)
    requires |d| == 3
    ensures |e| == 6 && forall i :: 0 <= i < 6 ==> e[i] == d[i / 2]
  {
    [d[0], d[0], d[1], d[1], d[2], d[2]]
  }

  /** The six digits `toGLSL` joins after `0x`. */
  function Digits(hex: string): (d: string)
    requires GlslHex(hex)
    ensures |d| == 6 && AllHex(d)
  {
    if |hex| == 4 then Expand(hex[1..]) else hex[1..]
  }

  /** The number a `0x`-prefixed string of hex digits converts to. */
  function HexNumber(d: string): nat
    requires AllHex(d)
  {
    if d == [] then 0
    else
      var front := d[..|d| - 1];
      assert forall i :: 0 <= i < |front| ==> front[i] == d[i];
      16 * HexNumber(front) + HexValue(d[|d| - 1])
  }

  /** Reading one more digit multiplies by 16 and adds the digit. */
  lemma HexNumberStep(p: string, c: char)
    requires AllHex(p) && IsHexDigit(c)
    ensures AllHex(p + [c])
    ensures HexNumber(p + [c]) == 16 * HexNumber(p) + HexValue(c)
  {
    assert (p + [c])[..|p|] == p;
  }

  /** Reading two more digits multiplies by 256 and adds the pair's value. */
  lemma HexNumberPair(p: string, hi: char, lo: char)
    requires AllHex(p) && IsHexDigit(hi) && IsHexDigit(lo)
    ensures AllHex(p + [hi, lo])
    ensures HexNumber(p + [hi, lo]) == 256 * HexNumber(p) + PairValue(hi, lo)
  {
    HexNumberStep(p, hi);
    HexNumberStep(p + [hi], lo);
    assert p + [hi] + [lo] == p + [hi, lo];
  }

  /** Six hex digits are three bytes, most significant first. */
  lemma SixDigits(d: string)
    requires |d| == 6 && AllHex(d)
    ensures HexNumber(d) == 65536 * PairValue(d[0], d[1]) + 256 * PairValue(d[2], d[3]) + PairValue(d[4], d[5])
  {
    var e: string := [];
    HexNumberPair(e, d[0], d[1]);
    HexNumberPair(e + [d[0], d[1]], d[2], d[3]);
    HexNumberPair(e + [d[0], d[1]] + [d[2], d[3]], d[4], d[5]);
    assert e + [d[0], d[1]] + [d[2], d[3]] + [d[4], d[5]] == d;
  }

  lemma DivMod256(v: int, q: int, r: int)
    requires 0 <= r < 256 && v == q * 256 + r
    ensures v / 256 == q && v % 256 == r
  {
  }

  lemma DivMod65536(v: int, q: int, r: int)
    requires 0 <= r < 65536 && v == q * 65536 + r
    ensures v / 65536 == q && v % 65536 == r
  {
  }

  /** `(c >> 16) & 255`, `(c >> 8) & 255` and `c & 255` pick the three bytes of a 24-bit number. */
  lemma Bytes(a: nat, b: nat, c: nat)
    requires a < 256 && b < 256 && c < 256
    ensures (65536 * a + 256 * b + c) / 65536 % 256 == a
    ensures (65536 * a + 256 * b + c) / 256 % 256 == b
    ensures (65536 * a + 256 * b + c) % 256 == c
  {
    var v := 65536 * a + 256 * b + c;
    DivMod65536(v, a, 256 * b + c);
    DivMod256(a, 0, a);
    DivMod256(v, 256 * a + b, c);
    DivMod256(256 * a + b, a, b);
  }

  /** The channel `(color >> shift) & 255` of a number below 2^24, as a fraction of 255. */
  function Channel(v: nat, divisor: nat): real
    requires divisor > 0
  {
    ((v / divisor) % 256) as real / 255.0
  }

  /**
   * toGLSL: `[r/255, g/255, b/255, 1]` read from the digits, or None where the
   * function throws `Error('Bad Hex')`.
   */
  function ToGlsl(hex: string): (r: Option<seq<real>>)
    ensures r.Some? <==> GlslHex(hex)
    ensures r.Some? ==> (|r.value| == 4 && r.value[3] == 1.0 &&
                         forall i :: 0 <= i < 3 ==> 0.0 <= r.value[i] <= 1.0)
  {
    if GlslHex(hex) then
      var v := HexNumber(Digits(hex));
      Some([Channel(v, 65536), Channel(v, 256), Channel(v, 1), 1.0])
    else
      None
  }

  /** What `toGLSL` throws on a string outside its pattern. */
  const BadHex := Error("Bad Hex")

  /** `#abc` is the same colour as `#aabbcc`. */
  lemma ToGlslShorthand(d: string)
    requires |d| == 3 && AllHex(d)
    ensures ToGlsl("#" + d) == ToGlsl("#" + Expand(d))
    ensures ToGlsl("#" + d).Some?
  {
    assert ("#" + d)[1..] == d;
    assert ("#" + Expand(d))[1..] == Expand(d);
  }

  /**
   * For `#rrggbb` the GLSL colour is the colour hexToRgb reads from the same
   * string, each channel divided by 255, with alpha 1.
   */
  lemma ToGlslMatchesHexToRgb(hex: string)
    requires |hex| == 7 && GlslHex(hex)
    ensures HexToRgb(hex).Some?
    ensures var c := HexToRgb(hex).value;
      ToGlsl(hex) == Some([c.r as real / 255.0, c.g as real / 255.0, c.b as real / 255.0, 1.0])
  {
    var d := hex[1..];
    SixDigits(d);
    Bytes(PairValue(d[0], d[1]), PairValue(d[2], d[3]), PairValue(d[4], d[5]));
  }

  /** The default colour of a new line is opaque black. */
  lemma ToGlslBlack()
    ensures ToGlsl("#000000") == Some([0.0, 0.0, 0.0, 1.0])
  {
    ToGlslMatchesHexToRgb("#000000");
    assert HexToRgb("#000000") == Some(Rgb(0, 0, 0));
  }

  // ---------------------------------------------------------------------------
  // Line and the application state
  // ---------------------------------------------------------------------------

  /** The two endpoints of a segment, `[[x1, y1], [x2, y2]]`. */
  function Segment(x1: real, y1: real, x2: real, y2: real): seq<Point> {
    [Point(x1, y1), Point(x2, y2)]
  }

  /** What renderLine uploads and draws for given vertices and colour, or None where toGLSL throws. */
  function Rendered(vertices: seq<Point>, colorHex: string): (r: Option<DrawCall>)
    ensures r.Some? <==> ToGlsl(colorHex).Some?
    ensures r.Some? ==> (r.value.mode == Lines && r.value.vertices == vertices &&
                         r.value.count == |vertices| && |r.value.colors| == 2 &&
                         r.value.colors[0] == r.value.colors[1] == ToGlsl(colorHex).value)
  {
    match ToGlsl(colorHex)
    case None => None
    case Some(g) => Some(DrawCall(Lines, vertices, [g, g], 2 * |vertices| / 2))
  }

  class Line {
    var x1: real
    var y1: real
    var x2: real
    var y2: real
    var colorHex: string
    var vertices: seq<Point>

    /** A new line stores its endpoints, is black and keeps the endpoints as its vertices. */
    constructor (x1: real, y1: real, x2: real, y2: real)
      ensures this.x1 == x1 && this.y1 == y1 && this.x2 == x2 && this.y2 == y2
      ensures colorHex == "#000000" && vertices == Segment(x1, y1, x2, y2)
      ensures Draw().Some? && Draw().value.count == 2
    {
      this.x1, this.y1, this.x2, this.y2 := x1, y1, x2, y2;
      colorHex := "#000000";
      vertices := [Point(x1, y1), Point(x2, y2)];
      new;
      ToGlslBlack();
    }

    /** changeColor: stores any string; only the colour changes. */
    method ChangeColor(newColorHex: string)
      modifies this`colorHex
      ensures colorHex == newColorHex
    {
      colorHex := newColorHex;
    }

    /** draw: renderLine of this line's vertices and colour. */
    function Draw(): (r: Option<DrawCall>)
      reads this
      ensures r.Some? <==> ToGlsl(colorHex).Some?
      ensures r.Some? ==> r.value.mode == Lines && r.value.vertices == vertices && r.value.count == |vertices|
      ensures r.Some? ==> r.value.colors == [ToGlsl(colorHex).value, ToGlsl(colorHex).value]
    {
      Rendered(vertices, colorHex)
    }
  }

  /** The line a draw pass of the state stops at: the first whose colour toGLSL rejects. */
  predicate Drawable(line: Line)
    reads line
  {
    ToGlsl(line.colorHex).Some?
  }

  /** The `CurrentState` of the application: the list of drawn objects. */
  class CurrentState {
    var objects: seq<Line>

    constructor ()
      ensures objects == []
    {
      objects := [];
    }

    /** add: the object goes to the end of the list. */
    method Add(line: Line)
      modifies this`objects
      ensures objects == old(objects) + [line]
    {
      objects := objects + [line];
    }

    /**
     * drawAllObjects: draws every object in order. The pass stops with
     * `Error('Bad Hex')` at the first line whose colour is not a hex colour,
     * after drawing the lines before it.
     */
    method DrawAllObjects() returns (calls: seq<DrawCall>, outcome: Outcome)
      ensures outcome.Normal? <==> forall i :: 0 <= i < |objects| ==> Drawable(objects[i])
      ensures outcome.Thrown? ==> (outcome == Thrown(BadHex) &&
                                   |calls| < |objects| && !Drawable(objects[|calls|]))
      ensures outcome.Normal? ==> |calls| == |objects|
      ensures |calls| <= |objects| && forall i :: 0 <= i < |calls| ==> Some(calls[i]) == objects[i].Draw()
    {
      calls := [];
      var i := 0;
      while i < |objects|
        invariant 0 <= i <= |objects| && |calls| == i
        invariant forall j :: 0 <= j < i ==> Drawable(objects[j]) && Some(calls[j]) == objects[j].Draw()
      {
        var call := objects[i].Draw();
        if call.None? {
          outcome := Thrown(BadHex);
          return;
        }
        calls := calls + [call.value];
        i := i + 1;
      }
      outcome := Normal;
    }
  }

  /**
   * drawLine: redraws, then a first click stores p1 and a second stores p2 and
   * adds the line from p1 to p2; then redraws again. A line in the state with
   * a bad colour makes the first redraw throw before anything changes.
   */
  method DrawLine(clicks: SquareDraft.Clicks, state: CurrentState, canvasX: real, canvasY: real, canvas: Canvas)
    returns (calls: seq<DrawCall>, outcome: Outcome)
    requires clicks.Valid()
    modifies clicks, state`objects
    ensures clicks.Valid()
    ensures outcome.Normal? <==> forall i :: 0 <= i < |old(state.objects)| ==> Drawable(old(state.objects)[i])
    ensures outcome.Thrown? ==> (outcome == Thrown(BadHex) &&
                                 state.objects == old(state.objects) && unchanged(clicks))
    ensures outcome.Normal? && old(clicks.first) ==>
      !clicks.first && clicks.p1 == Some(ClickToDevice(canvasX, canvasY, canvas.width, canvas.height)) &&
      clicks.p2 == old(clicks.p2) && state.objects == old(state.objects)
    ensures outcome.Normal? && !old(clicks.first) ==>
      var p, q := old(clicks.p1).value, ClickToDevice(canvasX, canvasY, canvas.width, canvas.height);
      clicks.first && clicks.p1 == old(clicks.p1) && clicks.p2 == Some(q) &&
      |state.objects| == |old(state.objects)| + 1 && state.objects[..|old(state.objects)|] == old(state.objects) &&
      var line := state.objects[|old(state.objects)|];
      fresh(line) && line.vertices == Segment(p.x, p.y, q.x, q.y) && line.colorHex == "#000000"
    ensures outcome.Normal? ==> (|calls| == |state.objects| &&
                                 forall i :: 0 <= i < |calls| ==> Some(calls[i]) == state.objects[i].Draw())
  {
    var before;
    before, outcome := state.DrawAllObjects();
    if outcome.Thrown? {
      calls := before;
      return;
    }
    var point := ClickToDevice(canvasX, canvasY, canvas.width, canvas.height);
    if clicks.first {
      clicks.first := false;
      clicks.p1 := Some(point);
    } else {
      clicks.first := true;
      clicks.p2 := Some(point);
      var p1, p2 := clicks.p1.value, clicks.p2.value;
      var line := new Line(p1.x, p1.y, p2.x, p2.y);
      state.Add(line);
    }
    calls, outcome := state.DrawAllObjects();
  }
}

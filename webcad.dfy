/**
 * The editor (src/webcad.js): the id counter, the object list and the selected id,
 * and `render`, which packs every object's device coordinates into one vertex
 * buffer with parallel colour and hit-colour buffers and one draw range per object.
 */
module Scene {
  import opened Wrappers
  import opened Utils
  import RectangleShape
  import SquareShape
  import PolygonShape
  import WebcadDraft

  /** An element of `objects`: an instance of one of the shape classes. */
  datatype ShapeObject =
    | RectangleObject(rectangle: RectangleShape.Rectangle)
    | SquareObject(square: SquareShape.Square)
    | PolygonObject(polygon: PolygonShape.Polygon)
    | DraftObject(draft: WebcadDraft.DraftSquare)

  function Ref(o: ShapeObject): object {
    match o
    case RectangleObject(s) => s
    case SquareObject(s) => s
    case PolygonObject(s) => s
    case DraftObject(s) => s
  }

  function IdOf(o: ShapeObject): int {
    match o
    case RectangleObject(s) => s.id
    case SquareObject(s) => s.id
    case PolygonObject(s) => s.id
    case DraftObject(s) => s.id
  }

  function ModeOf(o: ShapeObject): DrawMode {
    match o
    case RectangleObject(s) => s.DrawingMode()
    case SquareObject(s) => s.DrawingMode()
    case PolygonObject(s) => s.DrawingMode()
    case DraftObject(s) => s.DrawingMode()
  }

  /** getDrawingMode over the classes: polygons are drawn as triangle fans, every other object as a triangle strip, none as lines. */
  lemma DrawModes(o: ShapeObject)
    ensures ModeOf(o) == TriangleFan <==> o.PolygonObject?
    ensures ModeOf(o) == TriangleStrip <==> !o.PolygonObject?
  {
  }

  /** The object's `webcad` back-reference (null only while a save is in progress). */
  function CanvasOf(o: ShapeObject): Canvas?
    reads Ref(o)
  {
    match o
    case RectangleObject(s) => s.webcad
    case SquareObject(s) => s.webcad
    case PolygonObject(s) => s.webcad
    case DraftObject(s) => s.webcad
  }

  function VerticesOf(o: ShapeObject): seq<Point>
    reads Ref(o)
  {
    match o
    case RectangleObject(s) => s.vertices
    case SquareObject(s) => s.vertices
    case PolygonObject(s) => s.vertices
    case DraftObject(s) => s.vertices
  }

  // ---------------------------------------------------------------------------
  // What render computes, as functions of what it reads
  // ---------------------------------------------------------------------------

  /** What render takes from one object: its id, its drawing mode and its getVertices result. */
  datatype View = View(id: int, mode: DrawMode, coords: seq<real>)

  function ViewOf(o: ShapeObject): View
    reads Ref(o)
    requires CanvasOf(o) != null
  {
    View(IdOf(o), ModeOf(o), DeviceCoords(VerticesOf(o), CanvasOf(o).width, CanvasOf(o).height))
  }

  function Footprint(objects: seq<ShapeObject>): set<object> {
    set o | o in objects :: Ref(o)
  }

  predicate Attached(objects: seq<ShapeObject>)
    reads Footprint(objects)
  {
    forall o :: o in objects ==> CanvasOf(o) != null
  }

  function ViewsOf(objects: seq<ShapeObject>): (views: seq<View>)
    reads Footprint(objects)
    requires Attached(objects)
    ensures |views| == |objects|
    ensures forall k :: 0 <= k < |objects| ==> views[k] == ViewOf(objects[k])
  {
    seq(|objects|, k requires 0 <= k < |objects| && Attached(objects) reads Footprint(objects) => ViewOf(objects[k]))
  }

  /** One entry of renderList: `index` and `count` are vertex counts (half the number of coordinates). */
  datatype RenderEntry = RenderEntry(id: int, index: real, count: real, mode: DrawMode)

  /** The renderList entry of an object whose coordinates start at position `start` of the vertex buffer. */
  function EntryOf(v: View, start: nat): RenderEntry {
    RenderEntry(v.id, start as real / 2.0, |v.coords| as real / 2.0, v.mode)
  }

  function Last<T>(s: seq<T>): T
    requires s != []
  {
    s[|s| - 1]
  }

  function Init<T>(s: seq<T>): seq<T>
    requires s != []
  {
    s[..|s| - 1]
  }

  lemma InitAppend<T>(a: seq<T>, b: seq<T>)
    requires b != []
    ensures a + b != [] && Init(a + b) == a + Init(b) && Last(a + b) == Last(b)
  {
    assert (a + b)[..|a + b| - 1] == a + b[..|b| - 1];
  }

  lemma Associative<T>(a: seq<T>, b: seq<T>, c: seq<T>)
    ensures a + b + c == a + (b + c)
  {
  }

  /** The vertex buffer: every object's coordinates, in list order. */
  function AllVertices(views: seq<View>): seq<real> {
    if views == [] then [] else AllVertices(Init(views)) + Last(views).coords
  }

  /** renderList: one entry per object, starting where the earlier objects' coordinates end. */
  function RenderList(views: seq<View>): seq<RenderEntry> {
    if views == [] then []
    else
      var v := Last(views);
      RenderList(Init(views)) + [EntryOf(v, |AllVertices(Init(views))|)]
  }

  /** The number of passes of `for (let i = 0; i < n / 2; i++)`. */
  function Steps(n: nat): nat {
    (n + 1) / 2
  }

  /** `s` pushed n times. */
  function Times(s: seq<real>, n: nat): (r: seq<real>)
    requires |s| == 4
    ensures |r| == 4 * n
  {
    if n == 0 then [] else Times(s, n - 1) + s
  }

  /** The colour render gives each vertex: red for the selected object, yellow otherwise. */
  function Tint(selected: Option<int>, id: int): seq<real> {
    if selected == Some(id) then [1.0, 0.0, 0.0, 1.0] else [1.0, 1.0, 0.0, 1.0]
  }

  /** The colour of the hit canvas: the id, scaled by 1/255, in the blue channel. */
  function HitTint(id: int): seq<real> {
    [0.0, 0.0, id as real * 1.0 / 255.0, 1.0]
  }

  /** The colours render pushes for one object: its tint once per loop pass. */
  function ColorRun(v: View, selected: Option<int>): seq<real> {
    Times(Tint(selected, v.id), Steps(|v.coords|))
  }

  /** The hit colours render pushes for one object. */
  function HitRun(v: View): seq<real> {
    Times(HitTint(v.id), Steps(|v.coords|))
  }

  function AllColors(views: seq<View>, selected: Option<int>): seq<real> {
    if views == [] then [] else AllColors(Init(views), selected) + ColorRun(Last(views), selected)
  }

  function AllHitColors(views: seq<View>): seq<real> {
    if views == [] then [] else AllHitColors(Init(views)) + HitRun(Last(views))
  }

  // ---------------------------------------------------------------------------
  // Properties of the render buffers
  // ---------------------------------------------------------------------------

  lemma {:induction false} RenderListEntries(views: seq<View>)
    ensures |RenderList(views)| == |views|
    ensures forall k :: 0 <= k < |views| ==>
      RenderList(views)[k] ==
        RenderEntry(views[k].id, |AllVertices(views[..k])| as real / 2.0, |views[k].coords| as real / 2.0, views[k].mode)
  {
    if views != [] {
      RenderListEntries(Init(views));
      forall k | 0 <= k < |views| - 1 ensures Init(views)[..k] == views[..k] {
      }
      assert Init(views) == views[..|views| - 1];
    }
  }

  lemma AllVerticesPrefix(views: seq<View>, k: nat)
    requires k < |views|
    ensures AllVertices(views[..k + 1]) == AllVertices(views[..k]) + views[k].coords
  {
    assert Init(views[..k + 1]) == views[..k];
  }

  lemma RenderListPrefix(views: seq<View>, k: nat)
    requires k < |views|
    ensures RenderList(views[..k + 1]) == RenderList(views[..k]) +
      [EntryOf(views[k], |AllVertices(views[..k])|)]
  {
    assert Init(views[..k + 1]) == views[..k];
  }

  lemma ColorsPrefix(views: seq<View>, selected: Option<int>, k: nat)
    requires k < |views|
    ensures AllColors(views[..k + 1], selected) ==
      AllColors(views[..k], selected) + ColorRun(views[k], selected)
  {
    assert Init(views[..k + 1]) == views[..k];
  }

  lemma HitColorsPrefix(views: seq<View>, k: nat)
    requires k < |views|
    ensures AllHitColors(views[..k + 1]) == AllHitColors(views[..k]) + HitRun(views[k])
  {
    assert Init(views[..k + 1]) == views[..k];
  }

  /**
   * render's draw ranges tile the vertex buffer in object order: one entry per
   * object with its id and mode, the first at 0, each starting where the previous
   * ends, and the last ending at the end of the buffer.
   */
  lemma RenderListTiles(views: seq<View>)
    ensures |RenderList(views)| == |views|
    ensures forall k :: 0 <= k < |views| ==>
      RenderList(views)[k].id == views[k].id && RenderList(views)[k].mode == views[k].mode &&
      RenderList(views)[k].count == |views[k].coords| as real / 2.0
    ensures views != [] ==> RenderList(views)[0].index == 0.0
    ensures forall k :: 0 <= k < |views| - 1 ==>
      RenderList(views)[k + 1].index == RenderList(views)[k].index + RenderList(views)[k].count
    ensures views != [] ==>
      RenderList(views)[|views| - 1].index + RenderList(views)[|views| - 1].count == |AllVertices(views)| as real / 2.0
  {
    RenderListEntries(views);
    forall k | 0 <= k < |views| - 1
      ensures RenderList(views)[k + 1].index == RenderList(views)[k].index + RenderList(views)[k].count
    {
      AllVerticesPrefix(views, k);
    }
    if views != [] {
      AllVerticesPrefix(views, |views| - 1);
      assert views[..|views|] == views;
    }
  }

  /** Every object's coordinate list holds whole vertices. */
  predicate WholeVertices(views: seq<View>) {
    forall k :: 0 <= k < |views| ==> |views[k].coords| % 2 == 0
  }

  /** With whole vertices, colours and hit colours get 4 numbers per vertex: twice the vertex buffer's length. */
  lemma {:induction false} ColorsTwiceVertices(views: seq<View>, selected: Option<int>)
    requires WholeVertices(views)
    ensures |AllColors(views, selected)| == 2 * |AllVertices(views)|
    ensures |AllHitColors(views)| == 2 * |AllVertices(views)|
  {
    if views != [] {
      assert |Last(views).coords| % 2 == 0;
      ColorsTwiceVertices(Init(views), selected);
    }
  }

  lemma ViewWhole(o: ShapeObject)
    requires CanvasOf(o) != null
    ensures |ViewOf(o).coords| % 2 == 0
  {
  }

  /** getVertices of every shape gives 2 numbers per vertex. */
  lemma ViewsWhole(objects: seq<ShapeObject>)
    requires Attached(objects)
    ensures WholeVertices(ViewsOf(objects))
  {
    forall k | 0 <= k < |objects| ensures |ViewsOf(objects)[k].coords| % 2 == 0 {
      ViewWhole(objects[k]);
    }
  }

  lemma {:induction false} TimesAt(s: seq<real>, n: nat, j: nat)
    requires |s| == 4 && j < n
    ensures Times(s, n)[4 * j..4 * j + 4] == s
  {
    var prev := Times(s, n - 1);
    assert Times(s, n) == prev + s;
    if j < n - 1 {
      TimesAt(s, n - 1, j);
      assert 4 * j + 4 <= |prev|;
      assert (prev + s)[4 * j..4 * j + 4] == prev[4 * j..4 * j + 4];
    } else {
      assert 4 * j == |prev|;
      assert (prev + s)[|prev|..|prev| + 4] == s;
    }
  }

  /** The colour buffer of two runs of objects, one after the other, is the two buffers concatenated. */
  lemma {:induction false} ColorsAppend(front: seq<View>, back: seq<View>, selected: Option<int>)
    ensures AllColors(front + back, selected) == AllColors(front, selected) + AllColors(back, selected)
  {
    if back == [] {
      assert front + back == front;
    } else {
      InitAppend(front, back);
      ColorsAppend(front, Init(back), selected);
      Associative(AllColors(front, selected), AllColors(Init(back), selected), ColorRun(Last(back), selected));
    }
  }

  /** The same for the hit-colour buffer. */
  lemma {:induction false} HitColorsAppend(front: seq<View>, back: seq<View>)
    ensures AllHitColors(front + back) == AllHitColors(front) + AllHitColors(back)
  {
    if back == [] {
      assert front + back == front;
    } else {
      InitAppend(front, back);
      HitColorsAppend(front, Init(back));
      Associative(AllHitColors(front), AllHitColors(Init(back)), HitRun(Last(back)));
    }
  }

  /** The colour buffer around one object: the objects before it, its own pushes, the objects after it. */
  lemma ColorsAround(front: seq<View>, v: View, back: seq<View>, selected: Option<int>)
    ensures AllColors(front + [v] + back, selected) ==
      AllColors(front, selected) + ColorRun(v, selected) + AllColors(back, selected)
  {
    var fv := front + [v];
    assert Init(fv) == front && Last(fv) == v;
    assert AllColors(fv, selected) == AllColors(front, selected) + ColorRun(v, selected);
    ColorsAppend(fv, back, selected);
  }

  /** The same for the hit-colour buffer. */
  lemma HitColorsAround(front: seq<View>, v: View, back: seq<View>)
    ensures AllHitColors(front + [v] + back) == AllHitColors(front) + HitRun(v) + AllHitColors(back)
  {
    var fv := front + [v];
    assert Init(fv) == front && Last(fv) == v;
    assert AllHitColors(fv) == AllHitColors(front) + HitRun(v);
    HitColorsAppend(fv, back);
  }

  lemma MiddleSlice(a: seq<real>, b: seq<real>, c: seq<real>, i: nat, j: nat)
    requires i <= j <= |b|
    ensures |a| + j <= |a + b + c|
    ensures (a + b + c)[|a| + i..|a| + j] == b[i..j]
  {
  }

  /** Push j of one object's colours, located in the buffer of the objects around it. */
  lemma ColorRunAt(front: seq<View>, v: View, back: seq<View>, selected: Option<int>, j: nat)
    requires j < Steps(|v.coords|)
    ensures |AllColors(front, selected)| + 4 * j + 4 <= |AllColors(front + [v] + back, selected)|
    ensures var base := |AllColors(front, selected)| + 4 * j;
      AllColors(front + [v] + back, selected)[base..base + 4] == Tint(selected, v.id)
  {
    ColorsAround(front, v, back, selected);
    TimesAt(Tint(selected, v.id), Steps(|v.coords|), j);
    MiddleSlice(AllColors(front, selected), ColorRun(v, selected), AllColors(back, selected), 4 * j, 4 * j + 4);
  }

  /** The same for the hit colours. */
  lemma HitRunAt(front: seq<View>, v: View, back: seq<View>, j: nat)
    requires j < Steps(|v.coords|)
    ensures |AllHitColors(front)| + 4 * j + 4 <= |AllHitColors(front + [v] + back)|
    ensures var base := |AllHitColors(front)| + 4 * j;
      AllHitColors(front + [v] + back)[base..base + 4] == HitTint(v.id)
  {
    HitColorsAround(front, v, back);
    TimesAt(HitTint(v.id), Steps(|v.coords|), j);
    MiddleSlice(AllHitColors(front), HitRun(v), AllHitColors(back), 4 * j, 4 * j + 4);
  }

  /**
   * The four colour numbers render pushes for vertex j of object k: (1,0,0,1) when
   * the object's id is selectedObjectId, (1,1,0,1) otherwise. They start 4j numbers
   * after the colours of the objects before k.
   */
  lemma VertexColor(views: seq<View>, selected: Option<int>, k: nat, j: nat)
    requires k < |views| && j < Steps(|views[k].coords|)
    ensures |AllColors(views[..k], selected)| + 4 * j + 4 <= |AllColors(views, selected)|
    ensures var base := |AllColors(views[..k], selected)| + 4 * j;
      AllColors(views, selected)[base..base + 4] ==
        if selected == Some(views[k].id) then [1.0, 0.0, 0.0, 1.0] else [1.0, 1.0, 0.0, 1.0]
  {
    assert views == views[..k] + [views[k]] + views[k + 1..];
    ColorRunAt(views[..k], views[k], views[k + 1..], selected, j);
  }

  /** The hit colour render pushes for vertex j of object k: (0,0,id/255,1). */
  lemma VertexHitColor(views: seq<View>, k: nat, j: nat)
    requires k < |views| && j < Steps(|views[k].coords|)
    ensures |AllHitColors(views[..k])| + 4 * j + 4 <= |AllHitColors(views)|
    ensures var base := |AllHitColors(views[..k])| + 4 * j;
      AllHitColors(views)[base..base + 4] == [0.0, 0.0, views[k].id as real / 255.0, 1.0]
  {
    assert views == views[..k] + [views[k]] + views[k + 1..];
    HitRunAt(views[..k], views[k], views[k + 1..], j);
  }

  // ---------------------------------------------------------------------------
  // Picking
  // ---------------------------------------------------------------------------

  /** The byte readPixels returns for a colour channel: clamped to [0, 1], scaled to 255 and rounded. */
  function ChannelByte(c: real): (b: int)
    ensures 0 <= b <= 255
  {
    if c <= 0.0 then 0 else if c >= 1.0 then 255 else (c * 255.0 + 0.5).Floor
  }

  /** The blue byte under an object's pixels is its id for ids 0..255; larger ids all read back as 255. */
  lemma PickRoundTrip(id: int)
    ensures 0 <= id <= 255 ==> ChannelByte(HitTint(id)[2]) == id
    ensures id > 255 ==> ChannelByte(HitTint(id)[2]) == 255
  {
    var c := HitTint(id)[2];
    if 0 < id < 255 {
      assert c * 255.0 == id as real;
      assert (c * 255.0 + 0.5).Floor == id;
    }
  }

  // ---------------------------------------------------------------------------
  // The editor
  // ---------------------------------------------------------------------------

  /** Each shape's getVertices, dispatched on the object's class. */
  method GetVertices(o: ShapeObject) returns (r: seq<real>)
    requires CanvasOf(o) != null
    ensures r == ViewOf(o).coords
  {
    match o {
      case RectangleObject(s) => r := s.GetVertices();
      case SquareObject(s) => r := s.GetVertices();
      case PolygonObject(s) => r := s.GetVertices();
      case DraftObject(s) => r := s.GetVertices();
    }
  }

  /** `vertices.push(v)` for each v of `values`, in order. */
  method PushAll(vertices: seq<real>, values: seq<real>) returns (r: seq<real>)
    ensures r == vertices + values
  {
    r := vertices;
    for j := 0 to |values|
      invariant r == vertices + values[..j]
    {
      r := r + [values[j]];
    }
    assert values[..|values|] == values;
  }

  /**
   * The colour loop of render for one entry: `for (i = 0; i < count; i++)` with
   * count = n / 2 for the n coordinates of object v pushes the tint and the hit
   * tint Steps(n) times.
   */
  method PushTints(colors: seq<real>, hitColors: seq<real>, selected: Option<int>, id: int, count: real, ghost v: View)
    returns (colorsOut: seq<real>, hitColorsOut: seq<real>)
    requires id == v.id && count == |v.coords| as real / 2.0
    ensures colorsOut == colors + ColorRun(v, selected)
    ensures hitColorsOut == hitColors + HitRun(v)
  {
    ghost var n := |v.coords|;
    colorsOut, hitColorsOut := colors, hitColors;
    var i := 0;
    while (i as real) < count
      invariant 0 <= i <= Steps(n)
      invariant colorsOut == colors + Times(Tint(selected, id), i)
      invariant hitColorsOut == hitColors + Times(HitTint(id), i)
      decreases Steps(n) - i
    {
      if selected == Some(id) {
        colorsOut := colorsOut + [1.0, 0.0, 0.0, 1.0];
      } else {
        colorsOut := colorsOut + [1.0, 1.0, 0.0, 1.0];
      }
      hitColorsOut := hitColorsOut + [0.0, 0.0, id as real * 1.0 / 255.0, 1.0];
      i := i + 1;
    }
  }

  /**
   * The buffer-building loop of render: per object, one renderList entry, its
   * coordinates appended to `vertices`, and per vertex four colour numbers and
   * four hit-colour numbers.
   */
  method RenderViews(views: seq<View>, selected: Option<int>)
    returns (renderList: seq<RenderEntry>, vertices: seq<real>, colors: seq<real>, hitColors: seq<real>)
    ensures renderList == RenderList(views)
    ensures vertices == AllVertices(views)
    ensures colors == AllColors(views, selected)
    ensures hitColors == AllHitColors(views)
  {
    renderList, vertices, colors, hitColors := [], [], [], [];
    for k := 0 to |views|
      invariant renderList == RenderList(views[..k])
      invariant vertices == AllVertices(views[..k])
      invariant colors == AllColors(views[..k], selected)
      invariant hitColors == AllHitColors(views[..k])
    {
      AllVerticesPrefix(views, k);
      RenderListPrefix(views, k);
      ColorsPrefix(views, selected, k);
      HitColorsPrefix(views, k);
      var re := RenderEntry(views[k].id, |vertices| as real / 2.0, |views[k].coords| as real / 2.0, views[k].mode);
      assert re == EntryOf(views[k], |AllVertices(views[..k])|);
      renderList := renderList + [re];
      vertices := PushAll(vertices, views[k].coords);
      colors, hitColors := PushTints(colors, hitColors, selected, re.id, re.count, views[k]);
    }
    assert views[..|views|] == views;
  }

  class Webcad {
    var lastId: int
    var objects: seq<ShapeObject>
    /** null until a pick; then the blue byte read back under the cursor. */
    var selectedObjectId: Option<int>
    var isDrawing: bool
    const canvas: Canvas

    /** The fields the constructor initialises; the WebGL contexts and buffers are not modelled. */
    constructor (canvas: Canvas)
      ensures this.canvas == canvas && lastId == 1 && objects == [] && selectedObjectId == None && !isDrawing
    {
      this.canvas := canvas;
      lastId := 1;
      objects := [];
      selectedObjectId := None;
      isDrawing := false;
    }

    /**
     * render's buffer building over the objects as they stand when it starts:
     * every object's getVertices result, laid out by RenderViews.
     */
    method Render() returns (renderList: seq<RenderEntry>, vertices: seq<real>, colors: seq<real>, hitColors: seq<real>)
      requires Attached(objects)
      ensures renderList == RenderList(old(ViewsOf(objects)))
      ensures vertices == AllVertices(old(ViewsOf(objects)))
      ensures colors == AllColors(old(ViewsOf(objects)), selectedObjectId)
      ensures hitColors == AllHitColors(old(ViewsOf(objects)))
    {
      var views := ViewsOf(objects);
      renderList, vertices, colors, hitColors := RenderViews(views, selectedObjectId);
    }

    /** addObject: appends at the end; earlier objects keep their places. */
    method AddObject(o: ShapeObject)
      modifies this`objects
      ensures objects == old(objects) + [o]
    {
      objects := objects + [o];
    }

    /**
     * A click in cursor mode: readPixels gives the blue byte of the hit canvas under
     * the cursor, which becomes selectedObjectId.
     */
    method OnCursorClick(blue: real)
      modifies this`selectedObjectId
      ensures selectedObjectId == Some(ChannelByte(blue))
      ensures forall id :: 0 <= id <= 255 && blue == HitTint(id)[2] ==> selectedObjectId == Some(id)
    {
      selectedObjectId := Some(ChannelByte(blue));
      forall id | 0 <= id <= 255 && blue == HitTint(id)[2] ensures ChannelByte(blue) == id {
        PickRoundTrip(id);
      }
    }

    /**
     * A click in square mode at canvas-relative (mouseX, mouseY): a new Square of
     * src/webcad.js with the current lastId, which then grows by one, centred at
     * the y-flipped click point with width 150, appended to the objects.
     */
    method OnSquareClick(mouseX: real, mouseY: real) returns (square: WebcadDraft.DraftSquare)
      modifies this`lastId, this`objects
      ensures fresh(square)
      ensures lastId == old(lastId) + 1
      ensures objects == old(objects) + [DraftObject(square)]
      ensures square.id == old(lastId) && square.webcad == canvas
      ensures square.position == Point(mouseX, canvas.height - mouseY) && square.width == 150.0
      ensures square.vertices == WebcadDraft.SquareCorners(square.position, 150.0)
    {
      square := new WebcadDraft.DraftSquare(lastId, canvas);
      lastId := lastId + 1;
      assert |square.vertices| == 4;
      square.SetPosition(mouseX, canvas.height - mouseY);
      assert |square.vertices| == 4;
      square.SetWidth(150.0);
      objects := objects + [DraftObject(square)];
    }
  }

  /** Two square-mode clicks on a fresh editor give ids 1 and 2 and leave lastId at 3. */
  method TwoSquareClicks(canvas: Canvas) returns (first: int, second: int, lastId: int)
    ensures first == 1 && second == 2 && lastId == 3
  {
    var webcad := new Webcad(canvas);
    var a := webcad.OnSquareClick(10.0, 20.0);
    var b := webcad.OnSquareClick(30.0, 40.0);
    return a.id, b.id, webcad.lastId;
  }
}

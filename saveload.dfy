/**
 * Saving and loading the object list (src/saveload.js). A save is the list of
 * records JSON.stringify would write; a load rebuilds every record with its
 * class's constructor, copies the record's fields onto it, and only then swaps
 * the editor's list and id counter.
 */
module SaveLoad {
  import opened Wrappers
  import opened Utils
  import RectangleShape
  import SquareShape
  import PolygonShape
  import opened Scene

  /**
   * One element of the saved JSON array: an object's own fields, without the
   * `webcad` back-reference. Records whose `type` names no shape class (the
   * editor's draft squares carry no `type` at all) keep only their id and type.
   */
  datatype Record =
    | RectangleRecord(id: int, angle: real, animateRotation: bool, position: Point,
        boxWidth: RectangleShape.JsNumber, boxHeight: RectangleShape.JsNumber, vertices: seq<Point>, colors: seq<Rgba>)
    | SquareRecord(id: int, angle: real, animateRotation: bool, position: Point, width: real,
        vertices: seq<Point>, colors: seq<Rgba>)
    | PolygonRecord(id: int, sides: nat, position: Point, width: real, height: real, angle: real,
        animateRotation: bool, vertices: seq<Point>, colors: seq<Rgba>)
    | OtherRecord(typeTag: Option<string>, id: int)

  /** What JSON.stringify writes for one object. */
  function RecordOf(o: ShapeObject): Record
    reads Ref(o)
  {
    match o
    case RectangleObject(s) =>
      RectangleRecord(s.id, s.angle, s.animateRotation, s.position, s.width, s.height, s.vertices, s.colors)
    case SquareObject(s) => SquareRecord(s.id, s.angle, s.animateRotation, s.position, s.width, s.vertices, s.colors)
    case PolygonObject(s) =>
      PolygonRecord(s.id, s.sides, s.position, s.width, s.height, s.angle, s.animateRotation, s.vertices, s.colors)
    case DraftObject(s) => OtherRecord(None, s.id)
  }

  function RecordsOf(objects: seq<ShapeObject>): (records: seq<Record>)
    reads Footprint(objects)
    ensures |records| == |objects|
    ensures forall k :: 0 <= k < |objects| ==> records[k] == RecordOf(objects[k])
  {
    seq(|objects|, k requires 0 <= k < |objects| reads Footprint(objects) => RecordOf(objects[k]))
  }

  /** `object.webcad = value` (a `delete` when value is null); nothing else of the object changes. */
  method SetBackReference(o: ShapeObject, value: Canvas?)
    modifies Ref(o)
    ensures CanvasOf(o) == value
    ensures RecordOf(o) == old(RecordOf(o))
  {
    match o {
      case RectangleObject(s) => s.webcad := value;
      case SquareObject(s) => s.webcad := value;
      case PolygonObject(s) => s.webcad := value;
      case DraftObject(s) => s.webcad := value;
    }
  }

  /** Two shape objects over the same instance are the same object: each class has its own case. */
  lemma RefInjective(o: ShapeObject, p: ShapeObject)
    requires Ref(o) == Ref(p)
    ensures o == p
  {
  }

  /** `objects.forEach(object => object.webcad = value)`. */
  method SetBackReferences(objects: seq<ShapeObject>, value: Canvas?)
    modifies Footprint(objects)
    ensures forall j :: 0 <= j < |objects| ==> CanvasOf(objects[j]) == value
    ensures forall j :: 0 <= j < |objects| ==> RecordOf(objects[j]) == old(RecordOf(objects[j]))
  {
    for k := 0 to |objects|
      invariant forall j :: 0 <= j < k ==> CanvasOf(objects[j]) == value
      invariant forall j :: 0 <= j < |objects| ==> RecordOf(objects[j]) == old(RecordOf(objects[j]))
    {
      SetBackReference(objects[k], value);
      forall j | 0 <= j < k && Ref(objects[j]) == Ref(objects[k]) ensures objects[j] == objects[k] {
        RefInjective(objects[j], objects[k]);
      }
    }
  }

  /**
   * save: strips every object's back-reference, stringifies the list, then points
   * every object back at the editor. The list itself is untouched.
   */
  method Save(webcad: Webcad) returns (records: seq<Record>)
    modifies Footprint(webcad.objects)
    ensures webcad.objects == old(webcad.objects)
    ensures records == old(RecordsOf(webcad.objects))
    ensures Attached(webcad.objects)
    ensures forall k :: 0 <= k < |webcad.objects| ==> CanvasOf(webcad.objects[k]) == webcad.canvas
  {
    var objects := webcad.objects;
    SetBackReferences(objects, null);
    records := RecordsOf(objects);
    assert forall j :: 0 <= j < |objects| ==> records[j] == old(RecordOf(objects[j]));
    SetBackReferences(objects, webcad.canvas);
  }

  // ---------------------------------------------------------------------------
  // Loading
  // ---------------------------------------------------------------------------

  /** The class-level settings the constructors read: each class's default colour and the polygon's side count. */
  datatype Defaults = Defaults(rectangleColor: string, squareColor: string, polygonColor: string, polygonSides: nat)

  /** The colour inputs only ever hold `#rrggbb` strings, so every default colour parses. */
  predicate ValidDefaults(d: Defaults) {
    HexToRgb(d.rectangleColor).Some? && HexToRgb(d.squareColor).Some? && HexToRgb(d.polygonColor).Some?
  }

  /** The running `lastId` of the load loop: the largest of 1 and every id seen. */
  function MaxId(records: seq<Record>): (m: int)
    ensures m >= 1
    ensures forall k :: 0 <= k < |records| ==> records[k].id <= m
  {
    if records == [] then 1
    else
      var m := MaxId(Init(records));
      assert forall k :: 0 <= k < |records| - 1 ==> records[k] == Init(records)[k];
      if Last(records).id > m then Last(records).id else m
  }

  /** The maximum is 1 or one of the ids: lastId does not run past the ids it saw. */
  lemma {:induction false} MaxIdAttained(records: seq<Record>)
    ensures MaxId(records) == 1 || exists k :: 0 <= k < |records| && records[k].id == MaxId(records)
  {
    if records != [] {
      MaxIdAttained(Init(records));
      if MaxId(records) != Last(records).id && MaxId(records) != 1 {
        var k :| 0 <= k < |records| - 1 && Init(records)[k].id == MaxId(Init(records));
        assert records[k] == Init(records)[k];
      }
    }
  }

  lemma MaxIdStep(records: seq<Record>, k: nat)
    requires k < |records|
    ensures MaxId(records[..k + 1]) == if records[k].id > MaxId(records[..k]) then records[k].id else MaxId(records[..k])
  {
    assert Init(records[..k + 1]) == records[..k] && Last(records[..k + 1]) == records[k];
  }

  /** `o` is the object a load builds from `rec`: the record's class, every saved field, and the editor as back-reference. */
  predicate Restored(o: ShapeObject, rec: Record, canvas: Canvas)
    reads Ref(o)
  {
    RecordOf(o) == rec && CanvasOf(o) == canvas
  }

  lemma RestoredId(o: ShapeObject, rec: Record, canvas: Canvas)
    requires Restored(o, rec, canvas)
    ensures IdOf(o) == rec.id
  {
  }

  /** A record whose `type` names one of the shape classes. */
  predicate Known(rec: Record) {
    !rec.OtherRecord?
  }

  /** The error `new shapeTypes[rawObject.type](...)` raises when the type names no class. */
  const NotAConstructor := TypeError("shapeTypes[rawObject.type] is not a constructor")

  method RebuildRectangle(id: int, canvas: Canvas, defaultColor: string, host: Host, rec: Record)
    returns (s: RectangleShape.Rectangle)
    requires HexToRgb(defaultColor).Some? && rec.RectangleRecord? && rec.id == id
    ensures fresh(s) && Restored(RectangleObject(s), rec, canvas)
  {
    s := new RectangleShape.Rectangle(id, canvas, defaultColor, host);
    s.angle, s.animateRotation, s.position := rec.angle, rec.animateRotation, rec.position;
    s.width, s.height, s.vertices, s.colors := rec.boxWidth, rec.boxHeight, rec.vertices, rec.colors;
  }

  /** `new Square(id, webcad)`: the fields the record does not overwrite. */
  method NewSquare(id: int, canvas: Canvas, defaultColor: string, host: Host) returns (s: SquareShape.Square)
    requires HexToRgb(defaultColor).Some?
    ensures fresh(s) && s.id == id && s.webcad == canvas
  {
    s := new SquareShape.Square(id, canvas, defaultColor, host);
  }

  method RebuildSquare(id: int, canvas: Canvas, defaultColor: string, host: Host, rec: Record)
    returns (s: SquareShape.Square)
    requires HexToRgb(defaultColor).Some? && rec.SquareRecord? && rec.id == id
    ensures fresh(s) && Restored(SquareObject(s), rec, canvas)
  {
    s := NewSquare(id, canvas, defaultColor, host);
    s.angle, s.animateRotation, s.position := rec.angle, rec.animateRotation, rec.position;
    s.width, s.vertices, s.colors := rec.width, rec.vertices, rec.colors;
  }

  method RebuildPolygon(id: int, canvas: Canvas, defaultSides: nat, defaultColor: string, host: Host, rec: Record)
    returns (s: PolygonShape.Polygon)
    requires HexToRgb(defaultColor).Some? && rec.PolygonRecord? && rec.id == id
    ensures fresh(s) && Restored(PolygonObject(s), rec, canvas)
  {
    s := new PolygonShape.Polygon(id, canvas, defaultSides, defaultColor, host);
    s.sides, s.position, s.width, s.height := rec.sides, rec.position, rec.width, rec.height;
    s.angle, s.animateRotation, s.vertices, s.colors := rec.angle, rec.animateRotation, rec.vertices, rec.colors;
  }

  /**
   * One step of the load loop: `new shapeTypes[type](id, webcad)` followed by
   * `Object.assign(parsedObject, rawObject)`; None when the type names no class.
   */
  method Rebuild(rec: Record, canvas: Canvas, defaults: Defaults, host: Host) returns (result: Option<ShapeObject>)
    requires ValidDefaults(defaults)
    ensures result.Some? <==> Known(rec)
    ensures result.Some? ==> fresh(Ref(result.value)) && Restored(result.value, rec, canvas)
  {
    match rec {
      case RectangleRecord(_, _, _, _, _, _, _, _) =>
        var s := RebuildRectangle(rec.id, canvas, defaults.rectangleColor, host, rec);
        result := Some(RectangleObject(s));
      case SquareRecord(_, _, _, _, _, _, _) =>
        var s := RebuildSquare(rec.id, canvas, defaults.squareColor, host, rec);
        result := Some(SquareObject(s));
      case PolygonRecord(_, _, _, _, _, _, _, _, _) =>
        var s := RebuildPolygon(rec.id, canvas, defaults.polygonSides, defaults.polygonColor, host, rec);
        result := Some(PolygonObject(s));
      case OtherRecord(_, _) =>
        result := None;
    }
  }

  /** One pass of the forEach body: rebuild record k and push it, or throw. */
  method PushRebuilt(parsed: seq<ShapeObject>, raw: seq<Record>, canvas: Canvas, defaults: Defaults, host: Host)
    returns (next: Option<seq<ShapeObject>>)
    requires ValidDefaults(defaults) && |parsed| < |raw|
    requires forall j :: 0 <= j < |parsed| ==> Known(raw[j]) && Restored(parsed[j], raw[j], canvas)
    ensures next.None? <==> !Known(raw[|parsed|])
    ensures next.Some? ==> |next.value| == |parsed| + 1
    ensures next.Some? ==> next.value == parsed + [next.value[|parsed|]]
    ensures next.Some? ==> forall j :: 0 <= j <= |parsed| ==> Known(raw[j]) && Restored(next.value[j], raw[j], canvas)
    ensures next.Some? ==> fresh(Ref(next.value[|parsed|]))
  {
    var parsedObject := Rebuild(raw[|parsed|], canvas, defaults, host);
    if parsedObject.None? {
      return None;
    }
    next := Some(parsed + [parsedObject.value]);
  }

  /**
   * The forEach of the reader's onload: every record rebuilt in order into a
   * fresh list, with the running maximum of the ids; None when a record of no
   * known type throws out of the loop.
   */
  method RebuildAll(raw: seq<Record>, canvas: Canvas, defaults: Defaults, host: Host)
    returns (parsedObjects: Option<seq<ShapeObject>>, lastId: int)
    requires ValidDefaults(defaults)
    ensures parsedObjects.Some? <==> forall k :: 0 <= k < |raw| ==> Known(raw[k])
    ensures parsedObjects.Some? ==> |parsedObjects.value| == |raw| && lastId == MaxId(raw)
    ensures parsedObjects.Some? ==> forall k :: 0 <= k < |raw| ==>
      fresh(Ref(parsedObjects.value[k])) && Restored(parsedObjects.value[k], raw[k], canvas)
  {
    var parsed: seq<ShapeObject> := [];
    lastId := 1;
    for k := 0 to |raw|
      invariant |parsed| == k && lastId == MaxId(raw[..k])
      invariant forall j :: 0 <= j < k ==> Known(raw[j]) && Restored(parsed[j], raw[j], canvas)
      invariant forall o :: o in parsed ==> fresh(Ref(o))
    {
      var next := PushRebuilt(parsed, raw, canvas, defaults, host);
      if next.None? {
        return None, lastId;
      }
      MaxIdStep(raw, k);
      parsed, lastId := next.value, if raw[k].id > lastId then raw[k].id else lastId;
    }
    assert raw[..|raw|] == raw;
    parsedObjects := Some(parsed);
  }

  /**
   * The reader's onload: only after every record is rebuilt does it replace the
   * list and set lastId one past the largest id. A record of no known type throws
   * out of the loop and leaves the editor as it was.
   */
  method OnLoad(webcad: Webcad, raw: seq<Record>, defaults: Defaults, host: Host) returns (outcome: Outcome)
    requires ValidDefaults(defaults)
    modifies webcad`objects, webcad`lastId
    ensures outcome.Normal? <==> forall k :: 0 <= k < |raw| ==> Known(raw[k])
    ensures outcome.Thrown? ==>
      outcome == Thrown(NotAConstructor) && webcad.objects == old(webcad.objects) && webcad.lastId == old(webcad.lastId)
    ensures outcome.Normal? ==> |webcad.objects| == |raw| && webcad.lastId == MaxId(raw) + 1
    ensures outcome.Normal? ==> forall k :: 0 <= k < |raw| ==>
      fresh(Ref(webcad.objects[k])) && Restored(webcad.objects[k], raw[k], webcad.canvas)
    ensures outcome.Normal? ==> webcad.lastId >= 2 && forall k :: 0 <= k < |raw| ==> raw[k].id < webcad.lastId
  {
    var parsedObjects, lastId := RebuildAll(raw, webcad.canvas, defaults, host);
    if parsedObjects.None? {
      return Thrown(NotAConstructor);
    }
    webcad.objects := parsedObjects.value;
    webcad.lastId := lastId + 1;
    return Normal;
  }

  /**
   * fileUploaded: an empty file list returns at once; otherwise the first file is
   * read and parsed (None stands for text JSON.parse rejects) and handed to onload.
   */
  method FileUploaded(webcad: Webcad, files: seq<Option<seq<Record>>>, defaults: Defaults, host: Host)
    returns (outcome: Outcome)
    requires ValidDefaults(defaults)
    modifies webcad`objects, webcad`lastId
    ensures files == [] ==> outcome == Normal && webcad.objects == old(webcad.objects) && webcad.lastId == old(webcad.lastId)
    ensures files != [] && files[0].None? ==>
      outcome.Thrown? && outcome.exception.SyntaxError? &&
      webcad.objects == old(webcad.objects) && webcad.lastId == old(webcad.lastId)
    ensures files != [] && files[0].Some? ==>
      (outcome.Normal? <==> forall k :: 0 <= k < |files[0].value| ==> Known(files[0].value[k]))
    ensures files != [] && files[0].Some? && outcome.Thrown? ==>
      outcome == Thrown(NotAConstructor) && webcad.objects == old(webcad.objects) && webcad.lastId == old(webcad.lastId)
    ensures files != [] && files[0].Some? && outcome.Normal? ==>
      |webcad.objects| == |files[0].value| && webcad.lastId == MaxId(files[0].value) + 1
    ensures files != [] && files[0].Some? && outcome.Normal? ==> forall k :: 0 <= k < |files[0].value| ==>
      fresh(Ref(webcad.objects[k])) && Restored(webcad.objects[k], files[0].value[k], webcad.canvas)
  {
    if |files| == 0 {
      return Normal;
    }
    match files[0] {
      case None => outcome := Thrown(SyntaxError("JSON.parse: unexpected input"));
      case Some(raw) => outcome := OnLoad(webcad, raw, defaults, host);
    }
  }

  /** load: declining the confirmation returns before anything happens. */
  method Load(webcad: Webcad, confirmed: bool, files: seq<Option<seq<Record>>>, defaults: Defaults, host: Host)
    returns (outcome: Outcome)
    requires ValidDefaults(defaults)
    modifies webcad`objects, webcad`lastId
    ensures !confirmed ==> outcome == Normal && webcad.objects == old(webcad.objects) && webcad.lastId == old(webcad.lastId)
    ensures confirmed && files == [] ==>
      outcome == Normal && webcad.objects == old(webcad.objects) && webcad.lastId == old(webcad.lastId)
    ensures confirmed && files != [] && files[0].None? ==>
      outcome.Thrown? && outcome.exception.SyntaxError? &&
      webcad.objects == old(webcad.objects) && webcad.lastId == old(webcad.lastId)
    ensures confirmed && files != [] && files[0].Some? ==>
      (outcome.Normal? <==> forall k :: 0 <= k < |files[0].value| ==> Known(files[0].value[k]))
    ensures confirmed && files != [] && files[0].Some? && outcome.Thrown? ==>
      outcome == Thrown(NotAConstructor) && webcad.objects == old(webcad.objects) && webcad.lastId == old(webcad.lastId)
    ensures confirmed && files != [] && files[0].Some? && outcome.Normal? ==>
      |webcad.objects| == |files[0].value| && webcad.lastId == MaxId(files[0].value) + 1
    ensures confirmed && files != [] && files[0].Some? && outcome.Normal? ==> forall k :: 0 <= k < |files[0].value| ==>
      fresh(Ref(webcad.objects[k])) && Restored(webcad.objects[k], files[0].value[k], webcad.canvas)
  {
    if !confirmed {
      return Normal;
    }
    outcome := FileUploaded(webcad, files, defaults, host);
  }
}

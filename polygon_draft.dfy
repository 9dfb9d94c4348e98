/**
 * The click-driven polygon of src/polygon.js: clicks collect vertices until the
 * chosen number is reached; the last click draws them as a triangle fan and
 * starts a new polygon.
 */
module PolygonDraft {
  import opened Wrappers
  import opened Utils

  /** The colour every clicked vertex gets. */
  const Black: seq<real> := [0.0, 0.0, 0.0, 1.0]

  /**
   * `last_n < n`, where `n` is the number the input's text converts to (None
   * for NaN, against which every comparison is false).
   */
  predicate Below(lastN: int, n: Option<real>) {
    n.Some? && (lastN as real) < n.value
  }

  /** The globals `vertices`, `colors`, `n` and `last_n` of the polygon tool. */
  class Polygon {
    var vertices: seq<Point>
    var colors: seq<seq<real>>
    var n: Option<real>
    var lastN: int

    /** `vertices = []; colors = []; var n = 3; var last_n = 1;` */
    constructor ()
      ensures vertices == [] && colors == [] && n == Some(3.0) && lastN == 1 && Valid()
    {
      vertices := [];
      colors := [];
      n := Some(3.0);
      lastN := 1;
    }

    /** Between clicks, last_n is one more than the number of vertices collected, each coloured black. */
    predicate Valid()
      reads this
    {
      lastN >= 1 && |vertices| == lastN - 1 && colors == Repeat(Black, lastN - 1)
    }

    /** changeN: the input's value, as the number later comparisons convert it to. */
    method ChangeN(value: Option<real>)
      modifies this`n
      ensures n == value
    {
      n := value;
    }

    /**
     * drawPolygon: the click becomes a device point with the y flip. Below n it
     * is collected; otherwise it is added, all collected points are drawn as a
     * fan of `vertices.length` vertices, and the collection starts again.
     */
    method DrawPolygon(canvasX: real, canvasY: real, width: Positive, height: Positive)
      returns (draw: Option<DrawCall>)
      requires Valid()
      modifies this`vertices, this`colors, this`lastN
      ensures Valid()
      ensures old(Below(lastN, n)) ==>
        draw == None && lastN == old(lastN) + 1 &&
        vertices == old(vertices) + [ClickToDevice(canvasX, canvasY, width, height)]
      ensures !old(Below(lastN, n)) ==>
        draw == Some(DrawCall(TriangleFan, old(vertices) + [ClickToDevice(canvasX, canvasY, width, height)],
                              Repeat(Black, old(lastN)), old(lastN))) &&
        vertices == [] && lastN == 1
    ensures draw.Some? ==> (draw.value.count == |draw.value.vertices| == |draw.value.colors| >= 1 &&
                            (n.Some? ==> n.value <= draw.value.count as real))
    {
      var p := ClickToDevice(canvasX, canvasY, width, height);
      RepeatGrows(Black, lastN - 1);
      if Below(lastN, n) {
        vertices := vertices + [p];
        colors := colors + [[0.0, 0.0, 0.0, 1.0]];
        lastN := lastN + 1;
        draw := None;
      } else {
        vertices := vertices + [p];
        colors := colors + [[0.0, 0.0, 0.0, 1.0]];
        draw := Some(DrawCall(TriangleFan, vertices, colors, |vertices|));
        vertices := [];
        colors := [];
        lastN := 1;
      }
    }
  }

  lemma RepeatGrows<T>(x: T, k: nat)
    ensures Repeat(x, k) + [x] == Repeat(x, k + 1)
  {
  }

  /** With the initial n of 3, the third click draws a triangle. */
  method Triangle(width: Positive, height: Positive) returns (first: Option<DrawCall>, second: Option<DrawCall>, third: Option<DrawCall>)
    ensures first == None && second == None
    ensures third.Some? && third.value.count == 3 && third.value.mode == TriangleFan
  {
    var polygon := new Polygon();
    first := polygon.DrawPolygon(0.0, 0.0, width, height);
    second := polygon.DrawPolygon(width, 0.0, width, height);
    third := polygon.DrawPolygon(0.0, height, width, height);
  }

  /** When the input does not read as a number, every click draws on its own. */
  method NotANumber(width: Positive, height: Positive) returns (draw: Option<DrawCall>)
    ensures draw.Some? && draw.value.count == 1
  {
    var polygon := new Polygon();
    polygon.ChangeN(None);
    draw := polygon.DrawPolygon(0.0, 0.0, width, height);
  }
}

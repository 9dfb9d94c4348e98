/**
 * Geometry and colour helpers shared by every shape (src/utils.js): the rotation
 * transform, the `#rrggbb` parser, `flatten`, and the pixel-to-device mapping
 * that all shapes repeat in their `getVertices`.
 */
module Utils {
  import opened Wrappers

  /** A 2D point: pixels with the origin at the lower left, or device units. */
  datatype Point = Point(x: real, y: real)

  /** The cosine and sine of one angle, as Math.cos and Math.sin return them. */
  datatype Rotation = Rotation(cos: real, sin: real)

  /**
   * The JavaScript runtime functions the shapes call and that the model does not
   * define: `cosSin(a)` is (Math.cos, Math.sin) of `a` degrees, `sqrt` is
   * Math.sqrt, `toNumber` is the coercion `"12" / 2` applies to a string, and
   * `numberToString` is the conversion `"12" + 3` applies to a number.
   */
  datatype Host = Host(
    cosSin: real -> Rotation,
    sqrt: real -> real,
    toNumber: string -> real,
    numberToString: real -> string)

  /** Math.cos(0) is 1 and Math.sin(0) is 0. */
  predicate ExactAtZero(host: Host) {
    host.cosSin(0.0) == Rotation(1.0, 0.0)
  }

  /** `q` is the rotation back by the angle of `r`: a unit pair and its conjugate. */
  predicate Undoes(q: Rotation, r: Rotation) {
    r.cos * r.cos + r.sin * r.sin == 1.0 && q == Rotation(r.cos, -r.sin)
  }

  /** Rotating by -a undoes rotating by a, as it does for exact cosine and sine. */
  predicate UndoesAt(host: Host, angle: real) {
    Undoes(host.cosSin(-angle), host.cosSin(angle))
  }

  function Abs(r: real): real {
    if r < 0.0 then -r else r
  }

  function Add(p: Point, q: Point): Point {
    Point(p.x + q.x, p.y + q.y)
  }

  function Sub(p: Point, q: Point): Point {
    Point(p.x - q.x, p.y - q.y)
  }

  /** The linear map (x cos - y sin, x sin + y cos). */
  function Turn(p: Point, r: Rotation): Point {
    Point(p.x * r.cos - p.y * r.sin, p.x * r.sin + p.y * r.cos)
  }

  /** rotate(x, y, angle): rotation about the origin by `angle` degrees. */
  function Rotate(x: real, y: real, angle: real, host: Host): Point {
    Turn(Point(x, y), host.cosSin(angle))
  }

  lemma RotateAtZero(x: real, y: real, host: Host)
    requires ExactAtZero(host)
    ensures Rotate(x, y, 0.0, host) == Point(x, y)
  {
  }

  /** Rotating back by the conjugate pair returns the original point. */
  lemma TurnUndone(p: Point, r: Rotation, q: Rotation)
    requires Undoes(q, r)
    ensures Turn(Turn(p, r), q) == p
  {
    var c, s := r.cos, r.sin;
    var t := Turn(p, r);
    calc {
      Turn(t, q).x;
      (p.x * c - p.y * s) * c + (p.x * s + p.y * c) * s;
      p.x * (c * c + s * s);
      p.x;
    }
    calc {
      Turn(t, q).y;
      -(p.x * c - p.y * s) * s + (p.x * s + p.y * c) * c;
      p.y * (c * c + s * s);
      p.y;
    }
  }

  lemma RotateUndone(x: real, y: real, angle: real, host: Host)
    requires UndoesAt(host, angle)
    ensures var p := Rotate(x, y, angle, host); Rotate(p.x, p.y, -angle, host) == Point(x, y)
  {
    TurnUndone(Point(x, y), host.cosSin(angle), host.cosSin(-angle));
  }

  /** A rotation is linear: it maps a sum to the sum of the images. */
  lemma TurnAdds(p: Point, q: Point, r: Rotation)
    ensures Turn(Add(p, q), r) == Add(Turn(p, r), Turn(q, r))
  {
    calc {
      Turn(Add(p, q), r).x;
      (p.x + q.x) * r.cos - (p.y + q.y) * r.sin;
      (p.x * r.cos - p.y * r.sin) + (q.x * r.cos - q.y * r.sin);
    }
    calc {
      Turn(Add(p, q), r).y;
      (p.x + q.x) * r.sin + (p.y + q.y) * r.cos;
      (p.x * r.sin + p.y * r.cos) + (q.x * r.sin + q.y * r.cos);
    }
  }

  // ---------------------------------------------------------------------------
  // Truncating remainder (the `%` of JavaScript numbers)
  // ---------------------------------------------------------------------------

  /** Rounds toward zero. */
  function Trunc(x: real): int {
    if x >= 0.0 then x.Floor else -((-x).Floor)
  }

  /** `a % m` on JavaScript numbers: a - m * trunc(a / m). */
  function JsRemainder(a: real, m: real): real
    requires m > 0.0
  {
    a - m * (Trunc(a / m) as real)
  }

  /** The remainder keeps the dividend's sign, stays below the divisor in
      magnitude, and differs from the dividend by a whole multiple of it. */
  lemma JsRemainderBounds(a: real, m: real)
    requires m > 0.0
    ensures a >= 0.0 ==> 0.0 <= JsRemainder(a, m) < m
    ensures a < 0.0 ==> -m < JsRemainder(a, m) <= 0.0
    ensures a - JsRemainder(a, m) == m * (Trunc(a / m) as real)
  {
    if a >= 0.0 {
      WholePartBelow(a, m, (a / m).Floor as real);
    } else {
      assert -a / m == -(a / m);
      WholePartBelow(-a, m, (-a / m).Floor as real);
    }
  }

  /** Taking the whole part f of a / m away leaves less than m of a. */
  lemma WholePartBelow(a: real, m: real, f: real)
    requires m > 0.0 && f <= a / m < f + 1.0
    ensures 0.0 <= a - m * f < m
  {
    var q := a / m;
    var d := q - f;
    assert 0.0 <= d < 1.0;
    assert 0.0 <= d * m < m by { assert d * m < 1.0 * m; }
    assert d * m == q * m - f * m;
    assert q * m == a;
    assert f * m == m * f;
    assert a - m * f == d * m;
  }

  // ---------------------------------------------------------------------------
  // Colours
  // ---------------------------------------------------------------------------

  /** A colour as hexToRgb returns it: three channels. */
  datatype Rgb = Rgb(r: int, g: int, b: int)

  /** A per-vertex colour, `[r, g, b, a]` with 0..255 channels. */
  datatype Rgba = Rgba(r: int, g: int, b: int, a: int)

  /** `[colorArr.r, colorArr.g, colorArr.b, 255]`, the entry every colour setter writes. */
  function Opaque(c: Rgb): Rgba {
    Rgba(c.r, c.g, c.b, 255)
  }

  predicate IsHexDigit(c: char) {
    '0' <= c <= '9' || 'a' <= c <= 'f' || 'A' <= c <= 'F'
  }

  predicate AllHex(s: string) {
    forall i :: 0 <= i < |s| ==> IsHexDigit(s[i])
  }

  function HexValue(c: char): (v: nat)
    requires IsHexDigit(c)
    ensures v < 16
  {
    if '0' <= c <= '9' then c as int - '0' as int
    else if 'a' <= c <= 'f' then c as int - 'a' as int + 10
    else c as int - 'A' as int + 10
  }

  /** parseInt of a two-digit hex pair. */
  function PairValue(hi: char, lo: char): (v: nat)
    requires IsHexDigit(hi) && IsHexDigit(lo)
    ensures v < 256
  {
    16 * HexValue(hi) + HexValue(lo)
  }

  /** The text after an optional leading `#` of a seven-character string. */
  function HexBody(hex: string): string {
    if |hex| == 7 && hex[0] == '#' then hex[1..] else hex
  }

  /**
   * hexToRgb: `/^#?([a-f\d]{2})([a-f\d]{2})([a-f\d]{2})$/i`, each pair read
   * with parseInt(_, 16), or null when the pattern does not match.
   */
  function HexToRgb(hex: string): (c: Option<Rgb>)
    ensures c.Some? <==> (|hex| == 6 && AllHex(hex)) || (|hex| == 7 && hex[0] == '#' && AllHex(hex[1..]))
    ensures c.Some? ==> 0 <= c.value.r < 256 && 0 <= c.value.g < 256 && 0 <= c.value.b < 256
  {
    var d := HexBody(hex);
    if |d| == 6 && AllHex(d) then
      Some(Rgb(PairValue(d[0], d[1]), PairValue(d[2], d[3]), PairValue(d[4], d[5])))
    else
      None
  }

  /**
   * Whatever the input's length, a colour is read from its last six characters:
   * red from the first pair of them, green from the second, blue from the third.
   */
  lemma HexToRgbPairs(hex: string)
    requires HexToRgb(hex).Some?
    ensures |hex| >= 6 && AllHex(hex[|hex| - 6..])
    ensures HexToRgb(hex).value.r == 16 * HexValue(hex[|hex| - 6]) + HexValue(hex[|hex| - 5])
    ensures HexToRgb(hex).value.g == 16 * HexValue(hex[|hex| - 4]) + HexValue(hex[|hex| - 3])
    ensures HexToRgb(hex).value.b == 16 * HexValue(hex[|hex| - 2]) + HexValue(hex[|hex| - 1])
  {
    var d := HexBody(hex);
    assert d == hex[|hex| - 6..];
  }

  /** An ASCII letter in upper case; other characters are unchanged. */
  function UpperChar(c: char): char {
    if 'a' <= c <= 'z' then (c as int - 32) as char else c
  }

  function Upper(s: string): (u: string)
    ensures |u| == |s| && forall i :: 0 <= i < |s| ==> u[i] == UpperChar(s[i])
  {
    if s == [] then [] else [UpperChar(s[0])] + Upper(s[1..])
  }

  lemma UpperHexDigit(c: char)
    ensures IsHexDigit(UpperChar(c)) <==> IsHexDigit(c)
    ensures IsHexDigit(c) ==> HexValue(UpperChar(c)) == HexValue(c)
  {
  }

  /** The `i` flag: upper-casing the input never changes the result. */
  lemma HexToRgbIgnoresCase(hex: string)
    ensures HexToRgb(Upper(hex)) == HexToRgb(hex)
  {
    var u := Upper(hex);
    forall i | 0 <= i < |hex|
      ensures IsHexDigit(u[i]) <==> IsHexDigit(hex[i])
      ensures IsHexDigit(hex[i]) ==> HexValue(u[i]) == HexValue(hex[i])
    {
      UpperHexDigit(hex[i]);
    }
    assert |hex| == 7 ==> (u[0] == '#' <==> hex[0] == '#');
    var d, e := HexBody(hex), HexBody(u);
    assert |d| == |e|;
    assert forall i :: 0 <= i < |d| ==> e[i] == UpperChar(d[i]);
    forall i | 0 <= i < |d|
      ensures IsHexDigit(e[i]) <==> IsHexDigit(d[i])
      ensures IsHexDigit(d[i]) ==> HexValue(e[i]) == HexValue(d[i])
    {
      UpperHexDigit(d[i]);
    }
  }

  /** The `#` is optional: six digits parse the same with or without it. */
  lemma HexToRgbHashOptional(digits: string)
    requires |digits| == 6
    ensures HexToRgb("#" + digits) == HexToRgb(digits)
  {
    assert ("#" + digits)[1..] == digits;
  }

  lemma HexToRgbExamples()
    ensures HexToRgb("abcdef") == Some(Rgb(171, 205, 239))
    ensures HexToRgb("#abcdef") == Some(Rgb(171, 205, 239))
    ensures HexToRgb("#ABCDEF") == Some(Rgb(171, 205, 239))
    ensures HexToRgb("#abcde") == None && HexToRgb("#abcdeg") == None && HexToRgb("##abcdef") == None
  {
    assert AllHex("abcdef");
    assert ("#abcdef")[1..] == "abcdef";
    assert ("#ABCDEF")[1..] == "ABCDEF";
    assert AllHex("ABCDEF");
    assert ("#abcdeg")[1..] == "abcdeg";
    assert !IsHexDigit("abcdeg"[5]);
    assert ("##abcdef")[1..] == "#abcdef";
  }

  /** The lower-case hex digit of 0..15. */
  function DigitChar(v: nat): (c: char)
    requires v < 16
    ensures IsHexDigit(c) && HexValue(c) == v
  {
    if v < 10 then ('0' as int + v) as char else ('a' as int + v - 10) as char
  }

  /** Two hex digits of a channel, as a colour input writes them. */
  function PairText(v: nat): (s: string)
    requires v < 256
    ensures |s| == 2 && AllHex(s) && PairValue(s[0], s[1]) == v
  {
    [DigitChar(v / 16), DigitChar(v % 16)]
  }

  /** The `#rrggbb` text of a colour. */
  function RgbText(c: Rgb): (s: string)
    requires 0 <= c.r < 256 && 0 <= c.g < 256 && 0 <= c.b < 256
  {
    "#" + PairText(c.r) + PairText(c.g) + PairText(c.b)
  }

  /** Formatting a colour as `#rrggbb` and parsing it returns the colour. */
  lemma HexToRgbRoundTrip(c: Rgb)
    requires 0 <= c.r < 256 && 0 <= c.g < 256 && 0 <= c.b < 256
    ensures HexToRgb(RgbText(c)) == Some(c)
  {
    var s := RgbText(c);
    assert s[1..] == PairText(c.r) + PairText(c.g) + PairText(c.b);
    assert AllHex(s[1..]);
  }

  // ---------------------------------------------------------------------------
  // flatten
  // ---------------------------------------------------------------------------

  /** The argument of flatten: a list of rows, or a plain list of numbers. */
  datatype FloatList = Rows(rows: seq<seq<real>>) | Flat(values: seq<real>)

  /** The rows one after the other. */
  function Concat(rows: seq<seq<real>>): seq<real> {
    if rows == [] then [] else Concat(rows[..|rows| - 1]) + rows[|rows| - 1]
  }

  /** Every row has length k. */
  predicate Uniform(rows: seq<seq<real>>, k: nat) {
    forall i :: 0 <= i < |rows| ==> |rows[i]| == k
  }

  /** Concatenating n rows of length k gives n*k numbers. */
  lemma {:induction false} ConcatLength(rows: seq<seq<real>>, k: nat)
    requires Uniform(rows, k)
    ensures |Concat(rows)| == |rows| * k
  {
    if rows != [] {
      var n := |rows| - 1;
      ConcatLength(rows[..n], k);
      assert |rows| * k == n * k + k;
    }
  }

  /** Entry j of row i sits at offset i*k + j of the concatenation. */
  lemma {:induction false} ConcatAt(rows: seq<seq<real>>, k: nat, i: nat, j: nat)
    requires Uniform(rows, k) && i < |rows| && j < k
    ensures i * k + j < |Concat(rows)| && Concat(rows)[i * k + j] == rows[i][j]
  {
    var n := |rows| - 1;
    var init := rows[..n];
    ConcatLength(init, k);
    assert Concat(rows) == Concat(init) + rows[n];
    if i < n {
      ConcatAt(init, k, i, j);
      assert init[i] == rows[i];
    } else {
      assert i * k + j == n * k + j;
    }
  }

  /** The length flatten allocates: rows times the first row's length, or the list's length. */
  function FlatLength(arr: FloatList): nat {
    match arr
    case Flat(values) => |values|
    case Rows(rows) => if rows == [] then 0 else |rows| * |rows[0]|
  }

  /**
   * flatten(arr): a Float32Array of FlatLength(arr) zeros filled in row order;
   * writes past its end are dropped, as a typed array drops them.
   */
  method Flatten(arr: FloatList) returns (result: seq<real>)
    ensures |result| == FlatLength(arr)
    ensures arr.Flat? ==> result == arr.values
    ensures arr.Rows? ==> forall t :: 0 <= t < |result| ==>
      result[t] == (if t < |Concat(arr.rows)| then Concat(arr.rows)[t] else 0.0)
    ensures arr.Rows? && arr.rows != [] && Uniform(arr.rows, |arr.rows[0]|) ==> result == Concat(arr.rows)
  {
    var n := FlatLength(arr);
    var a := new real[n](_ => 0.0);
    match arr {
    case Flat(values) =>
      for i := 0 to |values|
        invariant a[..i] == values[..i]
      {
        a[i] := values[i];
      }
      assert a[..] == a[..|values|];
    case Rows(rows) =>
      var current := 0;
      for i := 0 to |rows|
        invariant current == |Concat(rows[..i])|
        invariant forall t :: 0 <= t < a.Length ==> a[t] == (if t < current then Concat(rows[..i])[t] else 0.0)
      {
        ghost var done := Concat(rows[..i]);
        for j := 0 to |rows[i]|
          invariant current == |done| + j
          invariant forall t :: 0 <= t < a.Length ==> a[t] == (if t < current then (done + rows[i][..j])[t] else 0.0)
        {
          if current < a.Length {
            a[current] := rows[i][j];
          }
          assert done + rows[i][..j + 1] == (done + rows[i][..j]) + [rows[i][j]];
          current := current + 1;
        }
        assert rows[..i + 1][..i] == rows[..i];
        assert Concat(rows[..i + 1]) == done + rows[i][..|rows[i]|];
      }
      assert rows[..|rows|] == rows;
      if rows != [] && Uniform(rows, |rows[0]|) {
        ConcatLength(rows, |rows[0]|);
      }
    }
    result := a[..];
  }

  // ---------------------------------------------------------------------------
  // Device coordinates, as every shape's getVertices / getVerticesColors build them
  // ---------------------------------------------------------------------------

  type Positive = r: real | r > 0.0 witness 1.0

  /** `[-1 + 2*x/width, -1 + 2*y/height]` for one pixel-space vertex. */
  function DeviceRow(p: Point, width: Positive, height: Positive): seq<real> {
    [-1.0 + 2.0 * p.x / width, -1.0 + 2.0 * p.y / height]
  }

  function DeviceRows(vs: seq<Point>, width: Positive, height: Positive): (rows: seq<seq<real>>)
    ensures |rows| == |vs| && Uniform(rows, 2)
    ensures forall i :: 0 <= i < |vs| ==> rows[i] == DeviceRow(vs[i], width, height)
  {
    seq(|vs|, i requires 0 <= i < |vs| => DeviceRow(vs[i], width, height))
  }

  /** The flattened device coordinates of a vertex list: 2 numbers per vertex. */
  function DeviceCoords(vs: seq<Point>, width: Positive, height: Positive): (r: seq<real>)
    ensures |r| == 2 * |vs|
  {
    var rows := DeviceRows(vs, width, height);
    ConcatLength(rows, 2);
    Concat(rows)
  }

  /** Vertex k of the list sits at entries 2k and 2k+1, mapped from pixels to the [-1, 1] device square. */
  lemma DeviceCoordsAt(vs: seq<Point>, width: Positive, height: Positive)
    ensures forall k :: 0 <= k < |vs| ==>
      DeviceCoords(vs, width, height)[2 * k] == -1.0 + 2.0 * vs[k].x / width &&
      DeviceCoords(vs, width, height)[2 * k + 1] == -1.0 + 2.0 * vs[k].y / height
  {
    var rows := DeviceRows(vs, width, height);
    ConcatLength(rows, 2);
    assert DeviceCoords(vs, width, height) == Concat(rows);
    forall k | 0 <= k < |vs|
      ensures DeviceCoords(vs, width, height)[2 * k] == -1.0 + 2.0 * vs[k].x / width
      ensures DeviceCoords(vs, width, height)[2 * k + 1] == -1.0 + 2.0 * vs[k].y / height
    {
      ConcatAt(rows, 2, k, 0);
      ConcatAt(rows, 2, k, 1);
      assert k * 2 + 0 == 2 * k && k * 2 + 1 == 2 * k + 1;
    }
  }

  function DeviceColorRow(c: Rgba): seq<real> {
    [c.r as real / 255.0, c.g as real / 255.0, c.b as real / 255.0, c.a as real / 255.0]
  }

  function DeviceColorRows(cs: seq<Rgba>): (rows: seq<seq<real>>)
    ensures |rows| == |cs| && Uniform(rows, 4)
    ensures forall i :: 0 <= i < |cs| ==> rows[i] == DeviceColorRow(cs[i])
  {
    seq(|cs|, i requires 0 <= i < |cs| => DeviceColorRow(cs[i]))
  }

  /** Every 0..255 channel divided by 255: 4 numbers per colour. */
  function DeviceColors(cs: seq<Rgba>): (r: seq<real>)
    ensures |r| == 4 * |cs|
    ensures forall k :: 0 <= k < |cs| ==>
      && r[4 * k] == cs[k].r as real / 255.0 && r[4 * k + 1] == cs[k].g as real / 255.0
      && r[4 * k + 2] == cs[k].b as real / 255.0 && r[4 * k + 3] == cs[k].a as real / 255.0
  {
    var rows := DeviceColorRows(cs);
    ConcatLength(rows, 4);
    assert forall k :: 0 <= k < |cs| ==>
      && Concat(rows)[4 * k] == rows[k][0] && Concat(rows)[4 * k + 1] == rows[k][1]
      && Concat(rows)[4 * k + 2] == rows[k][2] && Concat(rows)[4 * k + 3] == rows[k][3] by {
      forall k | 0 <= k < |cs|
        ensures && Concat(rows)[4 * k] == rows[k][0] && Concat(rows)[4 * k + 1] == rows[k][1]
                && Concat(rows)[4 * k + 2] == rows[k][2] && Concat(rows)[4 * k + 3] == rows[k][3]
      {
        ConcatAt(rows, 4, k, 0);
        ConcatAt(rows, 4, k, 1);
        ConcatAt(rows, 4, k, 2);
        ConcatAt(rows, 4, k, 3);
        assert k * 4 + 0 == 4 * k && k * 4 + 3 == 4 * k + 3;
      }
    }
    Concat(rows)
  }

  /** The y-flipping click mapping of the early drafts:
      `[-1 + 2*canvasX/width, -1 + 2*(height - canvasY)/height]`. */
  function ClickToDevice(canvasX: real, canvasY: real, width: Positive, height: Positive): (p: Point)
    ensures (p.x + 1.0) * width / 2.0 == canvasX && height - (p.y + 1.0) * height / 2.0 == canvasY
  {
    Point(-1.0 + 2.0 * canvasX / width, -1.0 + 2.0 * (height - canvasY) / height)
  }

  /** The canvas corners land on the device square's corners; the top row maps to y = 1. */
  lemma ClickToDeviceCorners(width: Positive, height: Positive, canvasX: real)
    ensures ClickToDevice(0.0, 0.0, width, height) == Point(-1.0, 1.0)
    ensures ClickToDevice(width, height, width, height) == Point(1.0, -1.0)
    ensures ClickToDevice(canvasX, 0.0, width, height).y == 1.0
    ensures ClickToDevice(canvasX, height, width, height).y == -1.0
  {
  }

  // ---------------------------------------------------------------------------
  // In-place writes and hit tests shared by the shapes
  // ---------------------------------------------------------------------------

  /** A JavaScript array after `a[0] = front[0]; ...; a[n-1] = front[n-1]`:
      the writes replace (or append) the first n entries and keep the rest. */
  function Overwrite<T>(s: seq<T>, front: seq<T>): (r: seq<T>)
    ensures |r| == if |s| > |front| then |s| else |front|
    ensures r[..|front|] == front
    ensures forall i :: |front| <= i < |r| ==> r[i] == s[i]
    ensures |s| <= |front| ==> r == front
  {
    front + (if |s| > |front| then s[|front|..] else [])
  }

  /** `a[i] = x` on a JavaScript array with i at most its length: replaces entry i or appends. */
  function SetAt<T>(s: seq<T>, i: nat, x: T): (r: seq<T>)
    requires i <= |s|
    ensures |r| == if i < |s| then |s| else |s| + 1
    ensures r[i] == x && forall j :: 0 <= j < |s| && j != i ==> r[j] == s[j]
  {
    if i < |s| then s[i := x] else s + [x]
  }

  /** Writing one more leading entry extends the overwritten front by that entry. */
  lemma OverwriteStep<T>(s: seq<T>, front: seq<T>, x: T)
    ensures Overwrite(s, front + [x]) == SetAt(Overwrite(s, front), |front|, x)
  {
    var a, b := Overwrite(s, front + [x]), SetAt(Overwrite(s, front), |front|, x);
    assert |a| == |b|;
    forall j | 0 <= j < |a| ensures a[j] == b[j] {
      if j < |front| {
        assert a[j] == a[..|front| + 1][j] == (front + [x])[j];
      } else if j == |front| {
        assert a[j] == a[..|front| + 1][j] == x;
      }
    }
  }

  /** The four index writes `a[0] = p; a[1] = q; a[2] = r; a[3] = t` in that order. */
  lemma OverwriteFour<T>(s: seq<T>, p: T, q: T, r: T, t: T)
    ensures Overwrite(s, [p, q, r, t]) == SetAt(SetAt(SetAt(SetAt(s, 0, p), 1, q), 2, r), 3, t)
  {
    assert Overwrite(s, []) == s;
    OverwriteStep(s, [], p);
    assert [] + [p] == [p];
    OverwriteStep(s, [p], q);
    assert [p] + [q] == [p, q];
    OverwriteStep(s, [p, q], r);
    assert [p, q] + [r] == [p, q, r];
    OverwriteStep(s, [p, q, r], t);
    assert [p, q, r] + [t] == [p, q, r, t];
  }

  /** Writing the same leading entries twice leaves only the second writes. */
  lemma OverwriteTwice<T>(s: seq<T>, f: seq<T>, g: seq<T>)
    requires |f| == |g|
    ensures Overwrite(Overwrite(s, f), g) == Overwrite(s, g)
  {
    var a, b := Overwrite(Overwrite(s, f), g), Overwrite(s, g);
    assert |a| == |b|;
    forall j | 0 <= j < |a| ensures a[j] == b[j] {
      if j < |g| {
        assert a[j] == a[..|g|][j] && b[j] == b[..|g|][j];
      }
    }
  }

  function Repeat<T>(x: T, n: nat): (r: seq<T>)
    ensures |r| == n && forall i :: 0 <= i < n ==> r[i] == x
  {
    if n == 0 then [] else Repeat(x, n - 1) + [x]
  }

  /** A vertex is within `tolerance` of the query point on both axes. */
  predicate Near(p: Point, q: Point, tolerance: real) {
    Abs(p.x - q.x) <= tolerance && Abs(p.y - q.y) <= tolerance
  }

  /** Some vertex is within `tolerance` of the query point: a getVertexIdx hit. */
  predicate Grabbed(points: seq<Point>, q: Point, tolerance: real) {
    exists j :: 0 <= j < |points| && Near(points[j], q, tolerance)
  }

  /** The linear scan of every getVertexIdx: the first index within tolerance, else null. */
  method FindVertex(points: seq<Point>, q: Point, tolerance: real) returns (idx: Option<nat>)
    ensures idx.Some? ==> idx.value < |points| && Near(points[idx.value], q, tolerance)
    ensures idx.Some? ==> forall j :: 0 <= j < idx.value ==> !Near(points[j], q, tolerance)
    ensures idx.None? ==> forall j :: 0 <= j < |points| ==> !Near(points[j], q, tolerance)
    ensures idx.Some? <==> Grabbed(points, q, tolerance)
  {
    for i := 0 to |points|
      invariant forall j :: 0 <= j < i ==> !Near(points[j], q, tolerance)
    {
      if Near(points[i], q, tolerance) {
        return Some(i);
      }
    }
    return None;
  }

  /** The middle of the segment from p to q. */
  function Midpoint(p: Point, q: Point): Point {
    Point((p.x + q.x) / 2.0, (p.y + q.y) / 2.0)
  }

  /** The creation drags' modifier: 1 when the cursor lies past the press point on this axis, else -1. */
  function Toward(press: real, cursor: real): real {
    if cursor > press then 1.0 else -1.0
  }

  /** The TypeError every colour setter raises when hexToRgb returned null and it reads `.r`. */
  const NullColorError := TypeError("Cannot read properties of null (reading 'r')")

  /** getVertices: each vertex mapped to device units and flattened, 2 numbers per vertex. */
  method FlattenVertices(vs: seq<Point>, width: Positive, height: Positive) returns (r: seq<real>)
    ensures r == DeviceCoords(vs, width, height)
  {
    var rows := DeviceRows(vs, width, height);
    r := Flatten(Rows(rows));
    if rows == [] {
      assert r == [] == Concat(rows);
    }
  }

  /** getVerticesColors: every 0..255 channel divided by 255 and flattened, 4 numbers per vertex. */
  method FlattenColors(cs: seq<Rgba>) returns (r: seq<real>)
    ensures r == DeviceColors(cs)
  {
    var rows := DeviceColorRows(cs);
    r := Flatten(Rows(rows));
    if rows == [] {
      assert r == [] == Concat(rows);
    }
  }

  /** The WebGL primitive a shape's getDrawingMode names. */
  datatype DrawMode = TriangleStrip | TriangleFan | Lines

  /** One drawArrays call of the click-driven drafts: the buffers it uploads and its mode and vertex count. */
  datatype DrawCall = DrawCall(mode: DrawMode, vertices: seq<Point>, colors: seq<seq<real>>, count: nat)

  /** The drawing surface a shape reaches through its `webcad` back-reference. */
  class Canvas {
    const width: Positive
    const height: Positive

    constructor (width: Positive, height: Positive)
      ensures this.width == width && this.height == height
    {
      this.width := width;
      this.height := height;
    }
  }
}

/**
 * backend/schemas/bounds.py: the pydantic records of a bounds document, with the
 * validation pydantic performs when a document is built from a JSON dictionary and the
 * `model_dump` the bounds store writes. The lax coercions pydantic also accepts
 * (numeric strings, booleans as numbers, integral floats as ints) are not modelled:
 * those inputs are rejected here.
 */
module BoundsSchema {
  import opened Wrappers
  import opened Json

  /** Line 6-8. */
  datatype ImageSize = ImageSize(width: int, height: int)

  /** Line 12: a pixel `(x, y)`. */
  type Point = (int, int)

  /** Line 17: the names a rect4 canvas may carry. */
  datatype RegionName = Conus | Alaska | Hawaii

  /** Lines 15-18. */
  datatype CanvasRect4 = CanvasRect4(name: RegionName, rect4: seq<Point>)

  /** Line 24: `[x0, y0, x1, y1]`. */
  datatype Bbox = Bbox(x0: int, y0: int, x1: int, y1: int)

  /** Lines 21-28. */
  datatype CanvasEntry = CanvasEntry(name: string, bbox: Bbox, polygon: Option<seq<Point>>, confidence: real,
                                     rect4: Option<seq<Point>>)

  /** Lines 33 and 39: the only value `type` admits, and its default. */
  const BoundsType: string := "map_canvas_bounds"

  /** Lines 31-35. */
  datatype BoundsDoc = BoundsDoc(kind: string, imageSize: ImageSize, canvases: seq<CanvasRect4>)

  /** Lines 38-42. */
  datatype MapCanvasBounds = MapCanvasBounds(kind: string, imageSize: ImageSize, canvases: seq<CanvasEntry>)

  // ---------------------------------------------------------------------------------
  // Validation
  // ---------------------------------------------------------------------------------

  function ParseInt(v: Json): Option<int> {
    if v.JInt? then Some(v.i) else None
  }

  /** A `float` field takes a JSON integer or a JSON float. */
  function ParseFloat(v: Json): Option<real> {
    if v.JInt? then Some(v.i as real) else if v.JFloat? then Some(v.r) else None
  }

  /** `Tuple[int, int]`: a list of exactly two integers. */
  function ParsePoint(v: Json): (r: Option<Point>)
    ensures r.Some? <==> v.JList? && |v.items| == 2 && v.items[0].JInt? && v.items[1].JInt?
  {
    if v.JList? && |v.items| == 2 && v.items[0].JInt? && v.items[1].JInt? then Some((v.items[0].i, v.items[1].i))
    else None
  }

  function ParsePoints(items: seq<Json>): (r: Option<seq<Point>>)
    ensures r.Some? <==> forall i :: 0 <= i < |items| ==> ParsePoint(items[i]).Some?
    ensures r.Some? ==> |r.value| == |items| && forall i :: 0 <= i < |items| ==> r.value[i] == ParsePoint(items[i]).value
  {
    if |items| == 0 then Some([])
    else
      var p := ParsePoint(items[0]);
      var rest := ParsePoints(items[1..]);
      assert forall i :: 1 <= i < |items| ==> items[i] == items[1..][i - 1];
      if p.Some? && rest.Some? then Some([p.value] + rest.value) else None
  }

  /** `List[Point]`. */
  function ParsePointList(v: Json): Option<seq<Point>> {
    if v.JList? then ParsePoints(v.items) else None
  }

  /** `Optional[List[Point]] = None`: absent or `null` gives `None`. */
  function ParseOptionalPoints(fs: seq<(string, Json)>, key: string): (r: Option<Option<seq<Point>>>)
    ensures Lookup(fs, key).None? || Lookup(fs, key) == Some(JNull) ==> r == Some(None)
  {
    var x := Lookup(fs, key);
    if x.None? || x.value.JNull? then Some(None)
    else
      var ps := ParsePointList(x.value);
      if ps.Some? then Some(Some(ps.value)) else None
  }

  /** `Tuple[int, int, int, int]`. */
  function ParseBbox(v: Json): (r: Option<Bbox>)
    ensures r.Some? <==> v.JList? && |v.items| == 4 && forall i :: 0 <= i < 4 ==> v.items[i].JInt?
  {
    if v.JList? && |v.items| == 4 && v.items[0].JInt? && v.items[1].JInt? && v.items[2].JInt? && v.items[3].JInt? then
      Some(Bbox(v.items[0].i, v.items[1].i, v.items[2].i, v.items[3].i))
    else None
  }

  /** A required field: it must be present. */
  function Required<T>(fs: seq<(string, Json)>, key: string, parse: Json -> Option<T>): Option<T> {
    var x := Lookup(fs, key);
    if x.Some? then parse(x.value) else None
  }

  function ParseImageSize(v: Json): Option<ImageSize> {
    if !v.JObj? then None
    else
      var w := Required(v.fields, "width", ParseInt);
      var h := Required(v.fields, "height", ParseInt);
      if w.Some? && h.Some? then Some(ImageSize(w.value, h.value)) else None
  }

  function ParseString(v: Json): Option<string> {
    if v.JStr? then Some(v.s) else None
  }

  /** `Literal["CONUS", "Alaska", "Hawaii"]`, matched exactly. */
  function ParseRegionName(v: Json): (r: Option<RegionName>)
    ensures r.Some? <==> v.JStr? && v.s in ["CONUS", "Alaska", "Hawaii"]
  {
    if v == JStr("CONUS") then Some(Conus)
    else if v == JStr("Alaska") then Some(Alaska)
    else if v == JStr("Hawaii") then Some(Hawaii)
    else None
  }

  function RegionNameText(n: RegionName): string {
    match n
    case Conus => "CONUS"
    case Alaska => "Alaska"
    case Hawaii => "Hawaii"
  }

  /** `type: Literal["map_canvas_bounds"] = "map_canvas_bounds"`. */
  predicate TypeTagOk(fs: seq<(string, Json)>) {
    var x := Lookup(fs, "type");
    x.None? || x.value == JStr(BoundsType)
  }

  /** Lines 21-28: a dictionary with a string name, a four-int bbox and a number confidence; the two outlines are optional. */
  function ParseCanvasEntry(v: Json): (r: Option<CanvasEntry>)
    ensures r.Some? <==>
      (v.JObj? && Required(v.fields, "name", ParseString).Some? && Required(v.fields, "bbox", ParseBbox).Some?
       && ParseOptionalPoints(v.fields, "polygon").Some? && Required(v.fields, "confidence", ParseFloat).Some?
       && ParseOptionalPoints(v.fields, "rect4").Some?)
    ensures r.Some? ==> r.value.name == Lookup(v.fields, "name").value.s
  {
    if !v.JObj? then None
    else
      var name := Required(v.fields, "name", ParseString);
      var bbox := Required(v.fields, "bbox", ParseBbox);
      var polygon := ParseOptionalPoints(v.fields, "polygon");
      var confidence := Required(v.fields, "confidence", ParseFloat);
      var rect4 := ParseOptionalPoints(v.fields, "rect4");
      if name.Some? && bbox.Some? && polygon.Some? && confidence.Some? && rect4.Some? then
        Some(CanvasEntry(name.value, bbox.value, polygon.value, confidence.value, rect4.value))
      else None
  }

  /** Lines 15-18: a restricted name and a list of points of any length. */
  function ParseCanvasRect4(v: Json): (r: Option<CanvasRect4>)
    ensures r.Some? <==>
      v.JObj? && Required(v.fields, "name", ParseRegionName).Some? && Required(v.fields, "rect4", ParsePointList).Some?
  {
    if !v.JObj? then None
    else
      var name := Required(v.fields, "name", ParseRegionName);
      var rect4 := Required(v.fields, "rect4", ParsePointList);
      if name.Some? && rect4.Some? then Some(CanvasRect4(name.value, rect4.value)) else None
  }

  function ParseEntries(items: seq<Json>): (r: Option<seq<CanvasEntry>>)
    ensures r.Some? <==> forall i :: 0 <= i < |items| ==> ParseCanvasEntry(items[i]).Some?
    ensures r.Some? ==> |r.value| == |items| && forall i :: 0 <= i < |items| ==> r.value[i] == ParseCanvasEntry(items[i]).value
  {
    if |items| == 0 then Some([])
    else
      var c := ParseCanvasEntry(items[0]);
      var rest := ParseEntries(items[1..]);
      assert forall i :: 1 <= i < |items| ==> items[i] == items[1..][i - 1];
      if c.Some? && rest.Some? then Some([c.value] + rest.value) else None
  }

  function ParseRects(items: seq<Json>): (r: Option<seq<CanvasRect4>>)
    ensures r.Some? <==> forall i :: 0 <= i < |items| ==> ParseCanvasRect4(items[i]).Some?
    ensures r.Some? ==> |r.value| == |items| && forall i :: 0 <= i < |items| ==> r.value[i] == ParseCanvasRect4(items[i]).value
  {
    if |items| == 0 then Some([])
    else
      var c := ParseCanvasRect4(items[0]);
      var rest := ParseRects(items[1..]);
      assert forall i :: 1 <= i < |items| ==> items[i] == items[1..][i - 1];
      if c.Some? && rest.Some? then Some([c.value] + rest.value) else None
  }

  /** `MapCanvasBounds(**payload)`: a dictionary with an admissible type tag, an image size and a list of canvas entries; other keys are ignored. */
  function ParseMapCanvasBounds(v: Json): (r: Option<MapCanvasBounds>)
    ensures r.Some? ==> v.JObj? && TypeTagOk(v.fields) && r.value.kind == BoundsType
  {
    if !v.JObj? || !TypeTagOk(v.fields) then None
    else
      var size := Required(v.fields, "image_size", ParseImageSize);
      var cs := Lookup(v.fields, "canvases");
      var canvases := if cs.Some? && cs.value.JList? then ParseEntries(cs.value.items) else None;
      if size.Some? && canvases.Some? then Some(MapCanvasBounds(BoundsType, size.value, canvases.value)) else None
  }

  /** `BoundsDoc(**payload)`. */
  function ParseBoundsDoc(v: Json): (r: Option<BoundsDoc>)
    ensures r.Some? ==> v.JObj? && TypeTagOk(v.fields) && r.value.kind == BoundsType
  {
    if !v.JObj? || !TypeTagOk(v.fields) then None
    else
      var size := Required(v.fields, "image_size", ParseImageSize);
      var cs := Lookup(v.fields, "canvases");
      var canvases := if cs.Some? && cs.value.JList? then ParseRects(cs.value.items) else None;
      if size.Some? && canvases.Some? then Some(BoundsDoc(BoundsType, size.value, canvases.value)) else None
  }

  // ---------------------------------------------------------------------------------
  // model_dump
  // ---------------------------------------------------------------------------------

  function DumpPoint(p: Point): Json {
    JList([JInt(p.0), JInt(p.1)])
  }

  function DumpPoints(ps: seq<Point>): (v: Json)
    ensures v.JList? && |v.items| == |ps| && forall i :: 0 <= i < |ps| ==> v.items[i] == DumpPoint(ps[i])
  {
    JList(seq(|ps|, i requires 0 <= i < |ps| => DumpPoint(ps[i])))
  }

  function DumpOptionalPoints(o: Option<seq<Point>>): Json {
    if o.Some? then DumpPoints(o.value) else JNull
  }

  function DumpBbox(b: Bbox): Json {
    JList([JInt(b.x0), JInt(b.y0), JInt(b.x1), JInt(b.y1)])
  }

  function DumpImageSize(s: ImageSize): Json {
    JObj([("width", JInt(s.width)), ("height", JInt(s.height))])
  }

  function DumpCanvasEntry(c: CanvasEntry): Json {
    JObj([("name", JStr(c.name)), ("bbox", DumpBbox(c.bbox)), ("polygon", DumpOptionalPoints(c.polygon)),
          ("confidence", JFloat(c.confidence)), ("rect4", DumpOptionalPoints(c.rect4))])
  }

  function DumpEntries(cs: seq<CanvasEntry>): (vs: seq<Json>)
    ensures |vs| == |cs| && forall i :: 0 <= i < |cs| ==> vs[i] == DumpCanvasEntry(cs[i])
  {
    seq(|cs|, i requires 0 <= i < |cs| => DumpCanvasEntry(cs[i]))
  }

  function DumpMapCanvasBounds(b: MapCanvasBounds): Json {
    JObj([("type", JStr(b.kind)), ("image_size", DumpImageSize(b.imageSize)), ("canvases", JList(DumpEntries(b.canvases)))])
  }

  function DumpCanvasRect4(c: CanvasRect4): Json {
    JObj([("name", JStr(RegionNameText(c.name))), ("rect4", DumpPoints(c.rect4))])
  }

  function DumpRects(cs: seq<CanvasRect4>): (vs: seq<Json>)
    ensures |vs| == |cs| && forall i :: 0 <= i < |cs| ==> vs[i] == DumpCanvasRect4(cs[i])
  {
    seq(|cs|, i requires 0 <= i < |cs| => DumpCanvasRect4(cs[i]))
  }

  function DumpBoundsDoc(b: BoundsDoc): Json {
    JObj([("type", JStr(b.kind)), ("image_size", DumpImageSize(b.imageSize)), ("canvases", JList(DumpRects(b.canvases)))])
  }

  // ---------------------------------------------------------------------------------
  // Properties
  // ---------------------------------------------------------------------------------

  lemma PointsRoundTrip(ps: seq<Point>)
    ensures ParsePointList(DumpPoints(ps)) == Some(ps)
  {
    var v := DumpPoints(ps);
    var r := ParsePoints(v.items);
    assert r.Some?;
    assert r.value == ps;
  }

  lemma CanvasEntryRoundTrip(c: CanvasEntry)
    ensures ParseCanvasEntry(DumpCanvasEntry(c)) == Some(c)
  {
    Lookup5("name", JStr(c.name), "bbox", DumpBbox(c.bbox), "polygon", DumpOptionalPoints(c.polygon),
            "confidence", JFloat(c.confidence), "rect4", DumpOptionalPoints(c.rect4));
    var fs := DumpCanvasEntry(c).fields;
    if c.polygon.Some? {
      PointsRoundTrip(c.polygon.value);
    }
    if c.rect4.Some? {
      PointsRoundTrip(c.rect4.value);
    }
    assert Required(fs, "name", ParseString) == Some(c.name);
    assert Required(fs, "bbox", ParseBbox) == Some(c.bbox);
    assert ParseOptionalPoints(fs, "polygon") == Some(c.polygon);
    assert Required(fs, "confidence", ParseFloat) == Some(c.confidence);
    assert ParseOptionalPoints(fs, "rect4") == Some(c.rect4);
  }

  lemma ImageSizeRoundTrip(z: ImageSize)
    ensures ParseImageSize(DumpImageSize(z)) == Some(z)
  {
    Lookup2("width", JInt(z.width), "height", JInt(z.height));
  }

  lemma EntriesRoundTrip(cs: seq<CanvasEntry>)
    ensures ParseEntries(DumpEntries(cs)) == Some(cs)
  {
    var items := DumpEntries(cs);
    forall i | 0 <= i < |items|
      ensures ParseCanvasEntry(items[i]) == Some(cs[i])
    {
      CanvasEntryRoundTrip(cs[i]);
    }
    var r := ParseEntries(items);
    assert r.Some?;
    assert r.value == cs;
  }

  lemma CanvasRect4RoundTrip(c: CanvasRect4)
    ensures ParseCanvasRect4(DumpCanvasRect4(c)) == Some(c)
  {
    Lookup2("name", JStr(RegionNameText(c.name)), "rect4", DumpPoints(c.rect4));
    PointsRoundTrip(c.rect4);
    assert ParseRegionName(JStr(RegionNameText(c.name))) == Some(c.name);
  }

  lemma RectsRoundTrip(cs: seq<CanvasRect4>)
    ensures ParseRects(DumpRects(cs)) == Some(cs)
  {
    var items := DumpRects(cs);
    forall i | 0 <= i < |items|
      ensures ParseCanvasRect4(items[i]) == Some(cs[i])
    {
      CanvasRect4RoundTrip(cs[i]);
    }
    var r := ParseRects(items);
    assert r.Some?;
    assert r.value == cs;
  }

  /**
   * What the bounds store writes it reads back: `MapCanvasBounds(**b.model_dump())`
   * is `b` again (backend/services/bounds_store.py writes the dump and rebuilds from it).
   */
  lemma MapCanvasBoundsRoundTrip(b: MapCanvasBounds)
    requires b.kind == BoundsType
    ensures ParseMapCanvasBounds(DumpMapCanvasBounds(b)) == Some(b)
  {
    var fs := DumpMapCanvasBounds(b).fields;
    Lookup3("type", JStr(b.kind), "image_size", DumpImageSize(b.imageSize), "canvases", JList(DumpEntries(b.canvases)));
    ImageSizeRoundTrip(b.imageSize);
    EntriesRoundTrip(b.canvases);
    assert TypeTagOk(fs);
    assert Required(fs, "image_size", ParseImageSize) == Some(b.imageSize);
  }

  lemma BoundsDocRoundTrip(b: BoundsDoc)
    requires b.kind == BoundsType
    ensures ParseBoundsDoc(DumpBoundsDoc(b)) == Some(b)
  {
    var fs := DumpBoundsDoc(b).fields;
    Lookup3("type", JStr(b.kind), "image_size", DumpImageSize(b.imageSize), "canvases", JList(DumpRects(b.canvases)));
    ImageSizeRoundTrip(b.imageSize);
    RectsRoundTrip(b.canvases);
    assert TypeTagOk(fs);
    assert Required(fs, "image_size", ParseImageSize) == Some(b.imageSize);
    assert Lookup(fs, "canvases") == Some(JList(DumpRects(b.canvases)));
  }

  /**
   * Lines 33 and 39: a document validates only with `type` absent or exactly
   * "map_canvas_bounds", and adding the tag to a document without one changes nothing.
   */
  lemma TypeTagDefault(fs: seq<(string, Json)>)
    requires "type" !in Keys(fs)
    ensures ParseMapCanvasBounds(JObj(fs)) == ParseMapCanvasBounds(JObj([("type", JStr(BoundsType))] + fs))
    ensures ParseBoundsDoc(JObj(fs)) == ParseBoundsDoc(JObj([("type", JStr(BoundsType))] + fs))
  {
  }

  /** Any other tag is refused. */
  lemma TypeTagOnly(fs: seq<(string, Json)>, t: string)
    requires t != BoundsType
    ensures ParseMapCanvasBounds(JObj([("type", JStr(t))] + fs)).None?
    ensures ParseBoundsDoc(JObj([("type", JStr(t))] + fs)).None?
  {
  }

  /** Lines 21-28: a canvas entry takes any name and leaves absent outlines as `None`. */
  lemma EntryDefaults(name: string)
    ensures ParseCanvasEntry(JObj([("name", JStr(name)), ("bbox", DumpBbox(Bbox(0, 0, 10, 10))), ("confidence", JInt(1))]))
      == Some(CanvasEntry(name, Bbox(0, 0, 10, 10), None, 1.0, None))
  {
    var e := [("name", JStr(name)), ("bbox", DumpBbox(Bbox(0, 0, 10, 10))), ("confidence", JInt(1))];
    Lookup3("name", JStr(name), "bbox", DumpBbox(Bbox(0, 0, 10, 10)), "confidence", JInt(1));
    assert Lookup(e, "polygon").None? && Lookup(e, "rect4").None?;
    assert Required(e, "name", ParseString) == Some(name);
    assert Required(e, "bbox", ParseBbox) == Some(Bbox(0, 0, 10, 10));
    assert Required(e, "confidence", ParseFloat) == Some(1.0);
  }

  /**
   * Lines 15-18: a rect4 canvas refuses a name outside the three regions and takes a
   * rect4 of any length, three corners included.
   */
  lemma Rect4Rules(name: string)
    ensures name !in ["CONUS", "Alaska", "Hawaii"] ==>
      ParseCanvasRect4(JObj([("name", JStr(name)), ("rect4", DumpPoints([(0, 0), (1, 0), (1, 1), (0, 1)]))])).None?
    ensures ParseCanvasRect4(JObj([("name", JStr("Alaska")), ("rect4", DumpPoints([(0, 0), (1, 0), (1, 1)]))]))
      == Some(CanvasRect4(Alaska, [(0, 0), (1, 0), (1, 1)]))
  {
    var r4 := [("name", JStr(name)), ("rect4", DumpPoints([(0, 0), (1, 0), (1, 1), (0, 1)]))];
    LookupPair(r4, 0);
    CanvasRect4RoundTrip(CanvasRect4(Alaska, [(0, 0), (1, 0), (1, 1)]));
  }
}

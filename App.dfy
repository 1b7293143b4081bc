/**
 * backend/app.py: the decisions the request handlers take around the pipeline — the
 * sanitised upload id and layer name, the rewriting of a bounds payload into the
 * `MapCanvasBounds` schema, the rule that reuses stored bounds instead of detecting
 * new ones, the defaults the overlay preview fills in, and the GEOID the alignment
 * endpoint keys counties by. Flask, the file system and the JSON text parser are left
 * out: parsed request bodies, stored bounds and the detector's result are inputs.
 */
module App {
  import opened Wrappers
  import opened Text
  import opened Json
  import BoundsSchema

  // ---------------------------------------------------------------------------------
  // Upload ids and layer names (lines 34-39, 52-54)
  // ---------------------------------------------------------------------------------

  /** The characters the sanitisers keep. */
  predicate Allowed(c: char) {
    IsAsciiAlnum(c) || c == '_' || c == '-'
  }

  /** What a sanitised id or layer is made of. */
  predicate IdChar(c: char) {
    ('a' <= c <= 'z') || IsDecimalDigit(c) || c == '_' || c == '-'
  }

  /** `"".join(c for c in s if c.isalnum() or c in ("_", "-"))`. */
  function KeepAllowed(s: string): (r: string)
    ensures |r| <= |s|
    ensures forall k :: 0 <= k < |r| ==> Allowed(r[k])
    ensures (forall k :: 0 <= k < |s| ==> Allowed(s[k])) ==> r == s
  {
    if |s| == 0 then [] else (if Allowed(s[0]) then [s[0]] else []) + KeepAllowed(s[1..])
  }

  /** The filter keeps exactly the allowed characters of its input. */
  lemma {:induction false} KeepAllowedExactly(s: string)
    ensures forall c :: c in KeepAllowed(s) <==> c in s && Allowed(c)
  {
    if |s| > 0 {
      KeepAllowedExactly(s[1..]);
      assert s == [s[0]] + s[1..];
    }
  }

  /** A string of refused characters is filtered away entirely. */
  lemma {:induction false} KeepAllowedNone(s: string)
    requires forall k :: 0 <= k < |s| ==> !Allowed(s[k])
    ensures KeepAllowed(s) == ""
  {
    if |s| > 0 {
      KeepAllowedNone(s[1..]);
    }
  }

  lemma {:induction false} LowerKeepsIdChars(s: string)
    requires forall k :: 0 <= k < |s| ==> Allowed(s[k])
    ensures forall k :: 0 <= k < |Lower(s)| ==> IdChar(Lower(s)[k])
  {
  }

  /** `_sanitize_upload_id`, lines 34-39. */
  function SanitiseUploadId(v: string): (r: string)
    ensures |r| > 0
    ensures forall k :: 0 <= k < |r| ==> IdChar(r[k])
    ensures |KeepAllowed(v)| == 0 ==> r == "upload"
    ensures |KeepAllowed(v)| > 0 ==> r == Lower(KeepAllowed(v))
  {
    if |v| == 0 then "upload"
    else
      var kept := KeepAllowed(v);
      StripOfTrimmed(kept);
      LowerKeepsIdChars(kept);
      var cleaned := Lower(Strip(kept));
      if |cleaned| == 0 then "upload" else cleaned
  }

  /** Sanitising a sanitised id changes nothing. */
  lemma {:induction false} SanitiseIdempotent(v: string)
    ensures SanitiseUploadId(SanitiseUploadId(v)) == SanitiseUploadId(v)
  {
    var r := SanitiseUploadId(v);
    assert forall k :: 0 <= k < |r| ==> Allowed(r[k]);
    assert KeepAllowed(r) == r;
    assert Lower(r) == r;
  }

  /** Lines 52-54: the "uploaded" default is applied to the stripped form value, before the filter. */
  function SanitiseLayer(form: Option<string>): (r: string)
    ensures forall k :: 0 <= k < |r| ==> IdChar(r[k])
  {
    var stripped := Strip(if form.Some? then form.value else "uploaded");
    var layer := if |stripped| == 0 then "uploaded" else stripped;
    LowerKeepsIdChars(KeepAllowed(layer));
    Lower(KeepAllowed(layer))
  }

  /** A missing or blank layer becomes "uploaded". */
  lemma LayerDefault()
    ensures SanitiseLayer(None) == "uploaded"
    ensures SanitiseLayer(Some("  ")) == "uploaded"
  {
    BlankStrips();
    UploadedUnchanged();
  }

  lemma BlankStrips()
    ensures Strip("  ") == ""
  {
    assert IsSpace(' ');
    assert StripLeft("  ") == StripLeft(" ") == StripLeft("");
  }

  lemma UploadedUnchanged()
    ensures Strip("uploaded") == "uploaded"
    ensures Lower(KeepAllowed("uploaded")) == "uploaded"
  {
    LettersTrimmed("uploaded");
    LowercaseUnchanged("uploaded");
  }

  /** A string of lower-case letters passes the filter and `lower()` unchanged. */
  lemma {:induction false} LowercaseUnchanged(s: string)
    requires forall k :: 0 <= k < |s| ==> 'a' <= s[k] <= 'z'
    ensures Lower(KeepAllowed(s)) == s
  {
    LettersKept(s);
    LettersLowered(s);
  }

  lemma {:induction false} LettersKept(s: string)
    requires forall k :: 0 <= k < |s| ==> 'a' <= s[k] <= 'z'
    ensures KeepAllowed(s) == s
  {
    assert forall k :: 0 <= k < |s| ==> Allowed(s[k]);
  }

  lemma {:induction false} LettersTrimmed(s: string)
    requires |s| > 0 && forall k :: 0 <= k < |s| ==> 'a' <= s[k] <= 'z'
    ensures Strip(s) == s
  {
    assert !IsSpace(s[0]) && !IsSpace(s[|s| - 1]);
    StripOfTrimmed(s);
  }

  lemma {:induction false} LettersLowered(s: string)
    requires forall k :: 0 <= k < |s| ==> 'a' <= s[k] <= 'z'
    ensures Lower(s) == s
  {
    assert forall k :: 0 <= k < |s| ==> Lower(s)[k] == s[k];
  }

  /** The default is applied before the filter, so a layer made only of refused characters ends up empty. */
  lemma LayerCanBeEmpty()
    ensures SanitiseLayer(Some("!!!")) == ""
  {
    RefusedLayerEmpty("!!!");
  }

  /** A layer without edge whitespace and made only of refused characters becomes the empty string. */
  lemma {:induction false} RefusedLayerEmpty(s: string)
    requires |s| > 0 && !IsSpace(s[0]) && !IsSpace(s[|s| - 1])
    requires forall k :: 0 <= k < |s| ==> !Allowed(s[k])
    ensures SanitiseLayer(Some(s)) == ""
  {
    StripOfTrimmed(s);
    KeepAllowedNone(s);
    assert Lower("") == "";
  }

  /** Lines 80-82 and 409-411: a stripped projection code, "4326" unless it names one of the two supported. */
  function Projection(form: Option<string>): (r: string)
    ensures r == "4326" || r == "5070"
    ensures form.Some? && Strip(form.value) in ["4326", "5070"] ==> r == Strip(form.value)
    ensures (form.None? || Strip(form.value) !in ["4326", "5070"]) ==> r == "4326"
  {
    var p := Strip(if form.Some? then form.value else "4326");
    if p == "4326" || p == "5070" then p else "4326"
  }

  // ---------------------------------------------------------------------------------
  // set_bounds: the simplified payload (lines 194-228)
  // ---------------------------------------------------------------------------------

  /** Python's `a and b` over two membership tests that may raise. */
  function AndThen(a: Option<bool>, b: Option<bool>): Option<bool> {
    if a.None? then None else if !a.value then Some(false) else b
  }

  /** Line 195: width, height and corners all at the top level. */
  function IsSimplified(payload: Json): Option<bool> {
    AndThen(Contains(payload, "width"), AndThen(Contains(payload, "height"), Contains(payload, "corners")))
  }

  /** The canvas lines 214-224 build from the four corners. */
  function SimplifiedCanvas(tl0: Json, tl1: Json, br0: Json, br1: Json, polygon: seq<Json>): Json {
    JObj([("name", JStr("CONUS")), ("bbox", JList([tl0, tl1, br0, br1])), ("polygon", JList(polygon)),
          ("confidence", JFloat(0.95))])
  }

  /**
   * Lines 197-198, 207-212 and 214-224: the CONUS canvas built from a corners dictionary;
   * `None` when an index or `list(...)` raises.
   */
  function CornerCanvas(corners: Json): Option<Json>
    requires corners.JObj?
  {
    var tl := Get(corners, "top_left", JList([])).value;
    var br := Get(corners, "bottom_right", JList([])).value;
    var tl0 := Index(tl, 0);
    var tl1 := Index(tl, 1);
    var br0 := Index(br, 0);
    var br1 := Index(br, 1);
    if tl0.None? || tl1.None? || br0.None? || br1.None? then None
    else
      var tr := Get(corners, "top_right", JNull).value;
      var bl := Get(corners, "bottom_left", JNull).value;
      var tr' := if Truthy(tr) then tr else JList([br0.value, tl1.value]);
      var bl' := if Truthy(bl) then bl else JList([tl0.value, br1.value]);
      var p0 := ToList(tl);
      var p1 := ToList(tr');
      var p2 := ToList(br);
      var p3 := ToList(bl');
      if p0.None? || p1.None? || p2.None? || p3.None? then None
      else Some(SimplifiedCanvas(tl0.value, tl1.value, br0.value, br1.value, [p0.value, p1.value, p2.value, p3.value]))
  }

  /** Lines 201-205 and 214-228: the tag, the size and the canvas written, the three old keys deleted. */
  function RewriteSimplified(fs: seq<(string, Json)>, canvas: Json): seq<(string, Json)>
    requires "width" in Keys(fs) && "height" in Keys(fs)
  {
    var size := JObj([("width", Lookup(fs, "width").value), ("height", Lookup(fs, "height").value)]);
    var out := Put(Put(Put(fs, "type", JStr(BoundsSchema.BoundsType)), "image_size", size), "canvases", JList([canvas]));
    Remove(Remove(Remove(out, "width"), "height"), "corners")
  }

  /** Lines 196-228 on a dictionary payload; `None` when a lookup, index or `list(...)` raises. */
  function Simplify(fs: seq<(string, Json)>): Option<seq<(string, Json)>>
    requires "width" in Keys(fs) && "height" in Keys(fs) && "corners" in Keys(fs)
  {
    var corners := Lookup(fs, "corners").value;
    if !corners.JObj? then None
    else
      var canvas := CornerCanvas(corners);
      if canvas.None? then None else Some(RewriteSimplified(fs, canvas.value))
  }

  /** The keys `RewriteSimplified` writes or deletes. */
  predicate SimplifyTouches(k: string) {
    k in ["type", "image_size", "canvases", "width", "height", "corners"]
  }

  /**
   * A simplified payload becomes a `map_canvas_bounds` document: the type tag and the
   * image size are set, the single new canvas replaces any canvases the payload had, the
   * width, height and corners keys are gone, and every other key keeps its value.
   */
  lemma {:induction false} RewriteSimplifiedResult(fs: seq<(string, Json)>, canvas: Json)
    requires "width" in Keys(fs) && "height" in Keys(fs)
    ensures var out := RewriteSimplified(fs, canvas);
      Lookup(out, "type") == Some(JStr(BoundsSchema.BoundsType))
      && Lookup(out, "image_size") == Some(JObj([("width", Lookup(fs, "width").value), ("height", Lookup(fs, "height").value)]))
      && Lookup(out, "canvases") == Some(JList([canvas]))
      && "width" !in Keys(out) && "height" !in Keys(out) && "corners" !in Keys(out)
      && (forall k :: !SimplifyTouches(k) ==> Lookup(out, k) == Lookup(fs, k))
  {
    var size := JObj([("width", Lookup(fs, "width").value), ("height", Lookup(fs, "height").value)]);
    var o1 := Put(fs, "type", JStr(BoundsSchema.BoundsType));
    var o2 := Put(o1, "image_size", size);
    var o3 := Put(o2, "canvases", JList([canvas]));
    var r1 := Remove(o3, "width");
    var r2 := Remove(r1, "height");
    var r3 := Remove(r2, "corners");
    assert RewriteSimplified(fs, canvas) == r3;
    KeepAcross(fs, "type", JStr(BoundsSchema.BoundsType), "image_size", size, "canvases", JList([canvas]));
    PutRemoveOthers(r2, "corners", JNull, "width");
    PutRemoveOthers(r2, "corners", JNull, "height");
    PutRemoveOthers(r1, "height", JNull, "width");
    forall k | !SimplifyTouches(k)
      ensures Lookup(r3, k) == Lookup(fs, k)
    {
      PutRemoveOthers(fs, "type", JStr(BoundsSchema.BoundsType), k);
      PutRemoveOthers(o1, "image_size", size, k);
      PutRemoveOthers(o2, "canvases", JList([canvas]), k);
      RemoveThreeKeeps(o3, k);
    }
  }

  /** The three assignments and three deletions of lines 201-228 keep the three values written. */
  lemma KeepAcross(fs: seq<(string, Json)>, a: string, va: Json, b: string, vb: Json, c: string, vc: Json)
    requires a == "type" && b == "image_size" && c == "canvases"
    ensures var o := Put(Put(Put(fs, a, va), b, vb), c, vc);
      var r := Remove(Remove(Remove(o, "width"), "height"), "corners");
      Lookup(r, a) == Some(va) && Lookup(r, b) == Some(vb) && Lookup(r, c) == Some(vc)
  {
    var o1 := Put(fs, a, va);
    var o2 := Put(o1, b, vb);
    var o3 := Put(o2, c, vc);
    PutRemoveOthers(o1, b, vb, a);
    PutRemoveOthers(o2, c, vc, a);
    PutRemoveOthers(o2, c, vc, b);
    RemoveThreeKeeps(o3, a);
    RemoveThreeKeeps(o3, b);
    RemoveThreeKeeps(o3, c);
  }

  /** Deleting the width, height and corners keys leaves every other key's value alone. */
  lemma RemoveThreeKeeps(o: seq<(string, Json)>, k: string)
    requires k != "width" && k != "height" && k != "corners"
    ensures Lookup(Remove(Remove(Remove(o, "width"), "height"), "corners"), k) == Lookup(o, k)
  {
    var r1 := Remove(o, "width");
    var r2 := Remove(r1, "height");
    PutRemoveOthers(o, "width", JNull, k);
    PutRemoveOthers(r1, "height", JNull, k);
    PutRemoveOthers(r2, "corners", JNull, k);
  }

  /**
   * Lines 207-224: with only the top-left and bottom-right corners given, the bbox is
   * [tl.x, tl.y, br.x, br.y] and the polygon runs TL, (br.x, tl.y), BR, (tl.x, br.y).
   */
  lemma CornerCanvasDefaults(x0: int, y0: int, x1: int, y1: int)
    ensures var tl := JList([JInt(x0), JInt(y0)]); var br := JList([JInt(x1), JInt(y1)]);
      CornerCanvas(JObj([("top_left", tl), ("bottom_right", br)]))
      == Some(SimplifiedCanvas(JInt(x0), JInt(y0), JInt(x1), JInt(y1),
                               [tl, JList([JInt(x1), JInt(y0)]), br, JList([JInt(x0), JInt(y1)])]))
  {
    var tl := JList([JInt(x0), JInt(y0)]);
    var br := JList([JInt(x1), JInt(y1)]);
    var fs := [("top_left", tl), ("bottom_right", br)];
    assert fs[1..][1..] == [];
    assert Keys(fs) == ["top_left", "bottom_right"];
    Lookup2("top_left", tl, "bottom_right", br);
    assert Get(JObj(fs), "top_left", JList([])) == Some(tl);
    assert Get(JObj(fs), "bottom_right", JList([])) == Some(br);
    assert Get(JObj(fs), "top_right", JNull) == Some(JNull);
    assert Get(JObj(fs), "bottom_left", JNull) == Some(JNull);
  }

  /** Lines 209-212: a truthy top-right or bottom-left corner is used as given. */
  lemma CornerCanvasGiven(x0: int, y0: int, x1: int, y1: int, tr: seq<Json>, bl: seq<Json>)
    requires |tr| > 0 && |bl| > 0
    ensures var tl := JList([JInt(x0), JInt(y0)]); var br := JList([JInt(x1), JInt(y1)]);
      CornerCanvas(JObj([("top_left", tl), ("bottom_right", br), ("top_right", JList(tr)), ("bottom_left", JList(bl))]))
      == Some(SimplifiedCanvas(JInt(x0), JInt(y0), JInt(x1), JInt(y1), [tl, JList(tr), br, JList(bl)]))
  {
    var tl := JList([JInt(x0), JInt(y0)]);
    var br := JList([JInt(x1), JInt(y1)]);
    var fs := [("top_left", tl), ("bottom_right", br), ("top_right", JList(tr)), ("bottom_left", JList(bl))];
    Lookup4("top_left", tl, "bottom_right", br, "top_right", JList(tr), "bottom_left", JList(bl));
    assert Get(JObj(fs), "top_left", JList([])) == Some(tl);
    assert Get(JObj(fs), "bottom_right", JList([])) == Some(br);
    assert Get(JObj(fs), "top_right", JNull) == Some(JList(tr));
    assert Get(JObj(fs), "bottom_left", JNull) == Some(JList(bl));
  }

  // ---------------------------------------------------------------------------------
  // set_bounds: corners inside canvases (lines 229-247)
  // ---------------------------------------------------------------------------------

  /** Lines 232-247 for one canvas; `None` when the canvas cannot be read as the code expects. */
  function ConvertCanvas(c: Json): Option<Json> {
    var hasCorners := Contains(c, "corners");
    if hasCorners.None? then None
    else if !hasCorners.value || Contains(c, "bbox").value then Some(c)
    else if !c.JObj? then None
    else
      var corners := Lookup(c.fields, "corners").value;
      if !corners.JObj? then None
      else
        var tl := Get(corners, "top_left", JList([])).value;
        var br := Get(corners, "bottom_right", JList([])).value;
        if Len(tl).None? then None
        else if Len(tl).value < 2 then Some(JObj(Remove(c.fields, "corners")))
        else if Len(br).None? then None
        else if Len(br).value < 2 then Some(JObj(Remove(c.fields, "corners")))
        else
          var tl0 := Index(tl, 0);
          var tl1 := Index(tl, 1);
          var br0 := Index(br, 0);
          var br1 := Index(br, 1);
          if tl0.None? || tl1.None? || br0.None? || br1.None? then None
          else
            var withBbox := Put(c.fields, "bbox", JList([tl0.value, tl1.value, br0.value, br1.value]));
            if "polygon" in Keys(c.fields) then Some(JObj(Remove(withBbox, "corners")))
            else
              var polygon := CornerPolygon(corners, tl0.value, tl1.value, br0.value, br1.value);
              if polygon.None? then None
              else Some(JObj(Remove(Put(withBbox, "polygon", polygon.value), "corners")))
  }

  /** Lines 241-246: the four corners, the missing side ones defaulted from the bbox. */
  function CornerPolygon(corners: Json, tl0: Json, tl1: Json, br0: Json, br1: Json): Option<Json>
    requires corners.JObj?
  {
    var p0 := ToList(Get(corners, "top_left", JList([])).value);
    var p1 := ToList(Get(corners, "top_right", JList([br0, tl1])).value);
    var p2 := ToList(Get(corners, "bottom_right", JList([])).value);
    var p3 := ToList(Get(corners, "bottom_left", JList([tl0, br1])).value);
    if p0.None? || p1.None? || p2.None? || p3.None? then None
    else Some(JList([p0.value, p1.value, p2.value, p3.value]))
  }

  /**
   * A canvas with corners and no bbox loses its corners; it gains the bbox
   * [tl[0], tl[1], br[0], br[1]] exactly when both corners have two entries or more, and
   * then a polygon too unless it already had one; a polygon it had is kept, and no other
   * key changes.
   */
  lemma {:induction false} ConvertCornersCanvas(fs: seq<(string, Json)>)
    requires "corners" in Keys(fs) && "bbox" !in Keys(fs)
    requires ConvertCanvas(JObj(fs)).Some?
    ensures var out := ConvertCanvas(JObj(fs)).value; var corners := Lookup(fs, "corners").value;
      out.JObj? && corners.JObj? && "corners" !in Keys(out.fields)
      && (var tl := Get(corners, "top_left", JList([])).value; var br := Get(corners, "bottom_right", JList([])).value;
          Len(tl).Some? && (Len(tl).value >= 2 ==> Len(br).Some?)
          && ("bbox" in Keys(out.fields) <==> Len(tl).value >= 2 && Len(br).value >= 2)
          && (Len(tl).value >= 2 && Len(br).value >= 2 ==>
                Index(tl, 0).Some? && Index(tl, 1).Some? && Index(br, 0).Some? && Index(br, 1).Some?
                && Lookup(out.fields, "bbox") == Some(JList([Index(tl, 0).value, Index(tl, 1).value, Index(br, 0).value, Index(br, 1).value]))))
      && ("polygon" in Keys(fs) ==> Lookup(out.fields, "polygon") == Lookup(fs, "polygon"))
      && ("polygon" !in Keys(fs) ==> ("polygon" in Keys(out.fields) <==> "bbox" in Keys(out.fields)))
      && (forall k :: k !in ["bbox", "polygon", "corners"] ==> Lookup(out.fields, k) == Lookup(fs, k))
  {
    var corners := Lookup(fs, "corners").value;
    var tl := Get(corners, "top_left", JList([])).value;
    var br := Get(corners, "bottom_right", JList([])).value;
    if Len(tl).value < 2 || Len(br).value < 2 {
      forall k | k != "corners"
        ensures Lookup(Remove(fs, "corners"), k) == Lookup(fs, k)
      {
        PutRemoveOthers(fs, "corners", JNull, k);
      }
      assert "bbox" !in Keys(Remove(fs, "corners")) by {
        PutRemoveOthers(fs, "corners", JNull, "bbox");
      }
      assert "polygon" in Keys(fs) || "polygon" !in Keys(Remove(fs, "corners")) by {
        PutRemoveOthers(fs, "corners", JNull, "polygon");
      }
    } else {
      var bbox := JList([Index(tl, 0).value, Index(tl, 1).value, Index(br, 0).value, Index(br, 1).value]);
      var withBbox := Put(fs, "bbox", bbox);
      forall k | k != "bbox"
        ensures Lookup(withBbox, k) == Lookup(fs, k)
      {
        PutRemoveOthers(fs, "bbox", bbox, k);
      }
      if "polygon" in Keys(fs) {
        PutRemoveOthers(withBbox, "corners", JNull, "bbox");
        forall k | k != "corners"
          ensures Lookup(Remove(withBbox, "corners"), k) == Lookup(withBbox, k)
        {
          PutRemoveOthers(withBbox, "corners", JNull, k);
        }
      } else {
        var polygon := CornerPolygon(corners, Index(tl, 0).value, Index(tl, 1).value, Index(br, 0).value, Index(br, 1).value).value;
        var withPoly := Put(withBbox, "polygon", polygon);
        PutRemoveOthers(withBbox, "polygon", polygon, "bbox");
        PutRemoveOthers(withPoly, "corners", JNull, "bbox");
        PutRemoveOthers(withPoly, "corners", JNull, "polygon");
        forall k | k !in ["bbox", "polygon", "corners"]
          ensures Lookup(Remove(withPoly, "corners"), k) == Lookup(fs, k)
        {
          PutRemoveOthers(withBbox, "polygon", polygon, k);
          PutRemoveOthers(withPoly, "corners", JNull, k);
        }
      }
    }
  }

  /** Line 232: a canvas without corners, or with a bbox already, is left as it is. */
  lemma ConvertCanvasKeeps(fs: seq<(string, Json)>)
    requires "corners" !in Keys(fs) || "bbox" in Keys(fs)
    ensures ConvertCanvas(JObj(fs)) == Some(JObj(fs))
  {
    assert Contains(JObj(fs), "corners") == Some("corners" in Keys(fs));
    if "corners" in Keys(fs) {
      assert Contains(JObj(fs), "bbox") == Some(true);
    }
  }

  /**
   * Line 237 short-circuits: with a top_left of fewer than two entries, bottom_right is
   * never measured, so whatever it holds the canvas only loses its corners.
   */
  lemma ShortTopLeftDropsCorners(fs: seq<(string, Json)>, corners: seq<(string, Json)>)
    requires "bbox" !in Keys(fs) && Lookup(fs, "corners") == Some(JObj(corners))
    requires var tl := Get(JObj(corners), "top_left", JList([])).value; Len(tl).Some? && Len(tl).value < 2
    ensures ConvertCanvas(JObj(fs)) == Some(JObj(Remove(fs, "corners")))
  {
    assert Contains(JObj(fs), "corners") == Some(true);
    assert Contains(JObj(fs), "bbox") == Some(false);
  }

  /** A canvas whose corners hold only a bottom_right that has no length keeps just its name. */
  lemma CornersWithoutTopLeftNormalise()
    ensures var canvas := JObj([("name", JStr("CONUS")), ("corners", JObj([("bottom_right", JInt(5))]))]);
      NormalisePayload(JObj([("canvases", JList([canvas]))])) == Some(JObj([("canvases", JList([JObj([("name", JStr("CONUS"))])]))]))
  {
    var canvas := JObj([("name", JStr("CONUS")), ("corners", JObj([("bottom_right", JInt(5))]))]);
    var fs := [("name", JStr("CONUS")), ("corners", JObj([("bottom_right", JInt(5))]))];
    ShortTopLeftDropsCorners(fs, [("bottom_right", JInt(5))]);
    assert Remove(fs, "corners") == [("name", JStr("CONUS"))];
    var payload := JObj([("canvases", JList([canvas]))]);
    assert IsSimplified(payload) == Some(false);
    assert Contains(payload, "canvases") == Some(true);
    assert At(payload, "canvases") == Some(JList([canvas]));
    assert Elements(JList([canvas])) == Some([canvas]);
    assert ConvertCanvas(canvas) == Some(JObj([("name", JStr("CONUS"))]));
    var m := MapAll([canvas], ConvertCanvas);
    assert [canvas][0] == canvas;
    assert m.value == [JObj([("name", JStr("CONUS"))])];
    assert Put(payload.fields, "canvases", JList([JObj([("name", JStr("CONUS"))])]))
      == [("canvases", JList([JObj([("name", JStr("CONUS"))])]))];
  }

  /**
   * A canvas whose corners hold only a bottom_right that has no length is emptied of its
   * corners, not a crash: without a bbox it then fails the schema, a 400 answer.
   */
  lemma CornersWithoutTopLeftRefused(uploadId: string, saveOk: bool)
    ensures var canvas := JObj([("name", JStr("CONUS")), ("corners", JObj([("bottom_right", JInt(5))]))]);
      var r := SetBoundsSpec(uploadId, Some(JObj([("canvases", JList([canvas]))])), saveOk);
      r == SchemaInvalid && SetBoundsStatus(r) == 400
  {
    CornersWithoutTopLeftNormalise();
  }

  /** `f` applied to every item in order; `None` as soon as one application fails. */
  function MapAll(items: seq<Json>, f: Json -> Option<Json>): (r: Option<seq<Json>>)
    ensures r.Some? <==> forall i :: 0 <= i < |items| ==> f(items[i]).Some?
    ensures r.Some? ==> |r.value| == |items| && forall i :: 0 <= i < |items| ==> r.value[i] == f(items[i]).value
  {
    if |items| == 0 then Some([])
    else
      var prev := MapAll(items[..|items| - 1], f);
      var last := f(items[|items| - 1]);
      assert forall i :: 0 <= i < |items| - 1 ==> items[..|items| - 1][i] == items[i];
      if prev.None? || last.None? then None else Some(prev.value + [last.value])
  }

  /** Lines 231-247: the loop rewrites the canvases one after the other and stops at the first that raises. */
  method ConvertCanvases(items: seq<Json>) returns (r: Option<seq<Json>>)
    ensures r == MapAll(items, ConvertCanvas)
  {
    var out: seq<Json> := [];
    for i := 0 to |items|
      invariant MapAll(items[..i], ConvertCanvas) == Some(out)
    {
      var c := ConvertCanvas(items[i]);
      if c.None? {
        return None;
      }
      assert items[..i + 1][..i] == items[..i];
      out := out + [c.value];
    }
    assert items[..|items|] == items;
    r := Some(out);
  }

  /** Line 229: the canvases branch, taken when the payload is not simplified. */
  function CanvasesBranch(payload: Json): Option<Json> {
    var has := Contains(payload, "canvases");
    if has.None? then None
    else if !has.value then Some(payload)
    else
      var cs := At(payload, "canvases");
      if cs.None? then None
      else if !Truthy(cs.value) then Some(payload)
      else
        var elems := Elements(cs.value);
        if elems.None? then None
        else
          var conv := MapAll(elems.value, ConvertCanvas);
          if conv.None? then None
          else if cs.value.JList? then Some(JObj(Put(payload.fields, "canvases", JList(conv.value))))
          else Some(payload)
  }

  /** Lines 195-247: the payload after the corner formats are rewritten; `None` when Python raises. */
  function NormalisePayload(payload: Json): Option<Json> {
    var simplified := IsSimplified(payload);
    if simplified.None? then None
    else if simplified.value then
      if !payload.JObj? then None
      else
        var out := Simplify(payload.fields);
        if out.None? then None else Some(JObj(out.value))
    else CanvasesBranch(payload)
  }

  // ---------------------------------------------------------------------------------
  // set_bounds: the response (lines 181-262)
  // ---------------------------------------------------------------------------------

  /** What `set_bounds` answers, and the bounds it stores when it succeeds. */
  datatype SetBoundsResponse =
    | InvalidJson
    | Crashed
    | SchemaInvalid
    | NoCanvases
    | SaveFailed
    | Saved(uploadId: string, panels: seq<string>, stored: BoundsSchema.MapCanvasBounds)

  /** The HTTP status of each answer; an exception the handler does not catch becomes Flask's 500. */
  function SetBoundsStatus(r: SetBoundsResponse): int {
    match r
    case InvalidJson => 400
    case Crashed => 500
    case SchemaInvalid => 400
    case NoCanvases => 400
    case SaveFailed => 500
    case Saved(_, _, _) => 200
  }

  function CanvasNames(cs: seq<BoundsSchema.CanvasEntry>): (names: seq<string>)
    ensures |names| == |cs| && forall i :: 0 <= i < |cs| ==> names[i] == cs[i].name
  {
    seq(|cs|, i requires 0 <= i < |cs| => cs[i].name)
  }

  /**
   * Lines 181-262. `body` is the parsed request body (`None` when it is not JSON) and
   * `saveOk` says whether the bounds store accepted the write.
   */
  function SetBoundsSpec(uploadId: string, body: Option<Json>, saveOk: bool): (r: SetBoundsResponse)
    ensures r.Saved? ==> (r.uploadId == SanitiseUploadId(uploadId) && r.stored.kind == BoundsSchema.BoundsType
      && |r.stored.canvases| > 0 && r.panels == CanvasNames(r.stored.canvases))
    ensures r.Saved? ==> saveOk && body.Some?
  {
    if body.None? then InvalidJson
    else
      var payload := NormalisePayload(body.value);
      if payload.None? then Crashed
      else
        var bounds := BoundsSchema.ParseMapCanvasBounds(payload.value);
        if bounds.None? then SchemaInvalid
        else if |bounds.value.canvases| == 0 then NoCanvases
        else if !saveOk then SaveFailed
        else Saved(SanitiseUploadId(uploadId), CanvasNames(bounds.value.canvases), bounds.value)
  }

  /** `set_bounds`, lines 181-262. */
  method SetBounds(uploadId: string, body: Option<Json>, saveOk: bool) returns (resp: SetBoundsResponse)
    ensures resp == SetBoundsSpec(uploadId, body, saveOk)
  {
    var safeId := SanitiseUploadId(uploadId);
    if body.None? {
      return InvalidJson;
    }
    var payload := NormaliseBody(body.value);
    if payload.None? {
      return Crashed;
    }
    var bounds := BoundsSchema.ParseMapCanvasBounds(payload.value);
    if bounds.None? {
      return SchemaInvalid;
    }
    if |bounds.value.canvases| == 0 {
      return NoCanvases;
    }
    if !saveOk {
      return SaveFailed;
    }
    resp := Saved(safeId, CanvasNames(bounds.value.canvases), bounds.value);
  }

  /** Lines 195-247 as `set_bounds` runs them: the rewritten payload, or `None` where Python raises. */
  method NormaliseBody(payload: Json) returns (out: Option<Json>)
    ensures out == NormalisePayload(payload)
  {
    var simplified := IsSimplified(payload);
    if simplified.None? {
      return None;
    }
    if simplified.value {
      if !payload.JObj? {
        return None;
      }
      var fs := Simplify(payload.fields);
      if fs.None? {
        return None;
      }
      return Some(JObj(fs.value));
    }
    out := RewriteCanvases(payload);
  }

  /** Lines 229-247: the canvases loop, writing the converted list back when the payload holds a list. */
  method RewriteCanvases(payload: Json) returns (out: Option<Json>)
    ensures out == CanvasesBranch(payload)
  {
    var has := Contains(payload, "canvases");
    if has.None? {
      return None;
    }
    if !has.value {
      return Some(payload);
    }
    var cs := At(payload, "canvases");
    if cs.None? {
      return None;
    }
    if !Truthy(cs.value) {
      return Some(payload);
    }
    var elems := Elements(cs.value);
    if elems.None? {
      return None;
    }
    var conv := ConvertCanvases(elems.value);
    if conv.None? {
      return None;
    }
    if cs.value.JList? {
      return Some(JObj(Put(payload.fields, "canvases", JList(conv.value))));
    }
    return Some(payload);
  }

  /** The CONUS canvas a simplified payload with two integer corners is stored as. */
  function ManualCanvas(x0: int, y0: int, x1: int, y1: int): BoundsSchema.CanvasEntry {
    BoundsSchema.CanvasEntry("CONUS", BoundsSchema.Bbox(x0, y0, x1, y1),
                             Some([(x0, y0), (x1, y0), (x1, y1), (x0, y1)]), 0.95, None)
  }

  lemma ManualCanvasParses(x0: int, y0: int, x1: int, y1: int)
    ensures var tl := JList([JInt(x0), JInt(y0)]); var br := JList([JInt(x1), JInt(y1)]);
      BoundsSchema.ParseCanvasEntry(SimplifiedCanvas(JInt(x0), JInt(y0), JInt(x1), JInt(y1),
                                    [tl, JList([JInt(x1), JInt(y0)]), br, JList([JInt(x0), JInt(y1)])]))
      == Some(ManualCanvas(x0, y0, x1, y1))
  {
    var tl := JList([JInt(x0), JInt(y0)]);
    var br := JList([JInt(x1), JInt(y1)]);
    var polygon := [tl, JList([JInt(x1), JInt(y0)]), br, JList([JInt(x0), JInt(y1)])];
    var c := SimplifiedCanvas(JInt(x0), JInt(y0), JInt(x1), JInt(y1), polygon);
    var fs := c.fields;
    Lookup4("name", JStr("CONUS"), "bbox", JList([JInt(x0), JInt(y0), JInt(x1), JInt(y1)]), "polygon", JList(polygon),
            "confidence", JFloat(0.95));
    assert Keys(fs) == ["name", "bbox", "polygon", "confidence"] by {
      assert fs[1..][1..][1..][1..] == [];
    }
    RectanglePointsParse(x0, y0, x1, y1);
    assert BoundsSchema.Required(fs, "name", BoundsSchema.ParseString) == Some("CONUS");
    assert BoundsSchema.Required(fs, "bbox", BoundsSchema.ParseBbox) == Some(BoundsSchema.Bbox(x0, y0, x1, y1));
    assert BoundsSchema.ParseOptionalPoints(fs, "polygon") == Some(Some([(x0, y0), (x1, y0), (x1, y1), (x0, y1)]));
    assert BoundsSchema.Required(fs, "confidence", BoundsSchema.ParseFloat) == Some(0.95);
    assert BoundsSchema.ParseOptionalPoints(fs, "rect4") == Some(None);
  }

  /** The clockwise rectangle lines 214-224 build parses as its four corners. */
  lemma RectanglePointsParse(x0: int, y0: int, x1: int, y1: int)
    ensures BoundsSchema.ParsePoints([JList([JInt(x0), JInt(y0)]), JList([JInt(x1), JInt(y0)]),
                                      JList([JInt(x1), JInt(y1)]), JList([JInt(x0), JInt(y1)])])
      == Some([(x0, y0), (x1, y0), (x1, y1), (x0, y1)])
  {
    var polygon := [JList([JInt(x0), JInt(y0)]), JList([JInt(x1), JInt(y0)]), JList([JInt(x1), JInt(y1)]), JList([JInt(x0), JInt(y1)])];
    var pts := [(x0, y0), (x1, y0), (x1, y1), (x0, y1)];
    assert forall i :: 0 <= i < 4 ==> BoundsSchema.ParsePoint(polygon[i]) == Some(pts[i]);
    assert BoundsSchema.ParsePoints(polygon).value == pts;
  }

  lemma SizeParses(w: int, h: int)
    ensures BoundsSchema.ParseImageSize(JObj([("width", JInt(w)), ("height", JInt(h))])) == Some(BoundsSchema.ImageSize(w, h))
  {
    var fs := [("width", JInt(w)), ("height", JInt(h))];
    Lookup2("width", JInt(w), "height", JInt(h));
  }

  /**
   * Lines 195-262 end to end: a payload giving an integer width and height and a
   * corners dictionary with only an integer top-left and bottom-right is stored as one
   * CONUS canvas with that bbox, the clockwise rectangle as polygon and confidence 0.95.
   */
  lemma SimplifiedSaved(uploadId: string, fs: seq<(string, Json)>, w: int, h: int, x0: int, y0: int, x1: int, y1: int)
    requires Lookup(fs, "width") == Some(JInt(w)) && Lookup(fs, "height") == Some(JInt(h))
    requires Lookup(fs, "corners") == Some(JObj([("top_left", JList([JInt(x0), JInt(y0)])),
                                                  ("bottom_right", JList([JInt(x1), JInt(y1)]))]))
    ensures SetBoundsSpec(uploadId, Some(JObj(fs)), true)
      == Saved(SanitiseUploadId(uploadId), ["CONUS"],
               BoundsSchema.MapCanvasBounds(BoundsSchema.BoundsType, BoundsSchema.ImageSize(w, h), [ManualCanvas(x0, y0, x1, y1)]))
  {
    var canvas := DefaultCornersPayload(fs, w, h, x0, y0, x1, y1);
    SavedOne(uploadId, JObj(fs), JObj(RewriteSimplified(fs, canvas)), BoundsSchema.ImageSize(w, h), ManualCanvas(x0, y0, x1, y1));
  }

  /** The rewriting half of `SimplifiedSaved`: the canvas the corners give, and the document it parses as. */
  lemma DefaultCornersPayload(fs: seq<(string, Json)>, w: int, h: int, x0: int, y0: int, x1: int, y1: int)
    returns (canvas: Json)
    requires Lookup(fs, "width") == Some(JInt(w)) && Lookup(fs, "height") == Some(JInt(h))
    requires Lookup(fs, "corners") == Some(JObj([("top_left", JList([JInt(x0), JInt(y0)])),
                                                  ("bottom_right", JList([JInt(x1), JInt(y1)]))]))
    ensures "width" in Keys(fs) && "height" in Keys(fs)
    ensures NormalisePayload(JObj(fs)) == Some(JObj(RewriteSimplified(fs, canvas)))
    ensures BoundsSchema.ParseMapCanvasBounds(JObj(RewriteSimplified(fs, canvas)))
      == Some(BoundsSchema.MapCanvasBounds(BoundsSchema.BoundsType, BoundsSchema.ImageSize(w, h), [ManualCanvas(x0, y0, x1, y1)]))
  {
    var tl := JList([JInt(x0), JInt(y0)]);
    var br := JList([JInt(x1), JInt(y1)]);
    canvas := SimplifiedCanvas(JInt(x0), JInt(y0), JInt(x1), JInt(y1),
                               [tl, JList([JInt(x1), JInt(y0)]), br, JList([JInt(x0), JInt(y1)])]);
    CornerCanvasDefaults(x0, y0, x1, y1);
    ManualCanvasParses(x0, y0, x1, y1);
    CornersPayload(fs, w, h, Lookup(fs, "corners").value, canvas, ManualCanvas(x0, y0, x1, y1));
  }

  /** A payload that normalises to a document with a single canvas is saved under that canvas's name. */
  lemma SavedOne(uploadId: string, body: Json, payload: Json, size: BoundsSchema.ImageSize, entry: BoundsSchema.CanvasEntry)
    requires NormalisePayload(body) == Some(payload)
    requires BoundsSchema.ParseMapCanvasBounds(payload) == Some(BoundsSchema.MapCanvasBounds(BoundsSchema.BoundsType, size, [entry]))
    ensures SetBoundsSpec(uploadId, Some(body), true)
      == Saved(SanitiseUploadId(uploadId), [entry.name], BoundsSchema.MapCanvasBounds(BoundsSchema.BoundsType, size, [entry]))
  {
    var b := BoundsSchema.MapCanvasBounds(BoundsSchema.BoundsType, size, [entry]);
    SavedWhenValid(uploadId, body, payload, b);
    assert CanvasNames(b.canvases) == [entry.name];
  }

  /**
   * Lines 195-247 for any corners dictionary the code can read: the payload is rewritten
   * into a document that parses as the one canvas built from the corners, under the
   * integer width and height given.
   */
  lemma CornersPayload(fs: seq<(string, Json)>, w: int, h: int, corners: Json, canvas: Json,
                       entry: BoundsSchema.CanvasEntry)
    requires Lookup(fs, "width") == Some(JInt(w)) && Lookup(fs, "height") == Some(JInt(h))
    requires Lookup(fs, "corners") == Some(corners) && corners.JObj?
    requires CornerCanvas(corners) == Some(canvas)
    requires BoundsSchema.ParseCanvasEntry(canvas) == Some(entry)
    ensures NormalisePayload(JObj(fs)) == Some(JObj(RewriteSimplified(fs, canvas)))
    ensures BoundsSchema.ParseMapCanvasBounds(JObj(RewriteSimplified(fs, canvas)))
      == Some(BoundsSchema.MapCanvasBounds(BoundsSchema.BoundsType, BoundsSchema.ImageSize(w, h), [entry]))
  {
    SimplifiedNormalises(fs, canvas);
    RewrittenFromCorners(fs, w, h, canvas, entry);
  }

  lemma RewrittenFromCorners(fs: seq<(string, Json)>, w: int, h: int, canvas: Json, entry: BoundsSchema.CanvasEntry)
    requires Lookup(fs, "width") == Some(JInt(w)) && Lookup(fs, "height") == Some(JInt(h))
    requires BoundsSchema.ParseCanvasEntry(canvas) == Some(entry)
    ensures BoundsSchema.ParseMapCanvasBounds(JObj(RewriteSimplified(fs, canvas)))
      == Some(BoundsSchema.MapCanvasBounds(BoundsSchema.BoundsType, BoundsSchema.ImageSize(w, h), [entry]))
  {
    RewriteSimplifiedResult(fs, canvas);
    RewrittenParses(RewriteSimplified(fs, canvas), w, h, canvas, entry);
  }

  lemma SavedWhenValid(uploadId: string, body: Json, payload: Json, b: BoundsSchema.MapCanvasBounds)
    requires NormalisePayload(body) == Some(payload)
    requires BoundsSchema.ParseMapCanvasBounds(payload) == Some(b) && |b.canvases| > 0
    ensures SetBoundsSpec(uploadId, Some(body), true) == Saved(SanitiseUploadId(uploadId), CanvasNames(b.canvases), b)
  {
  }

  lemma SimplifiedNormalises(fs: seq<(string, Json)>, canvas: Json)
    requires "width" in Keys(fs) && "height" in Keys(fs)
    requires Lookup(fs, "corners").Some? && Lookup(fs, "corners").value.JObj?
    requires CornerCanvas(Lookup(fs, "corners").value) == Some(canvas)
    ensures NormalisePayload(JObj(fs)) == Some(JObj(RewriteSimplified(fs, canvas)))
  {
    assert IsSimplified(JObj(fs)) == Some(true);
    assert Simplify(fs) == Some(RewriteSimplified(fs, canvas));
  }

  lemma RewrittenParses(out: seq<(string, Json)>, w: int, h: int, canvas: Json, entry: BoundsSchema.CanvasEntry)
    requires Lookup(out, "type") == Some(JStr(BoundsSchema.BoundsType))
    requires Lookup(out, "image_size") == Some(JObj([("width", JInt(w)), ("height", JInt(h))]))
    requires Lookup(out, "canvases") == Some(JList([canvas]))
    requires BoundsSchema.ParseCanvasEntry(canvas) == Some(entry)
    ensures BoundsSchema.ParseMapCanvasBounds(JObj(out))
      == Some(BoundsSchema.MapCanvasBounds(BoundsSchema.BoundsType, BoundsSchema.ImageSize(w, h), [entry]))
  {
    SizeParses(w, h);
    var parsed := BoundsSchema.ParseEntries([canvas]);
    assert [canvas][0] == canvas;
    assert parsed.Some?;
    assert parsed.value == [entry];
  }

  // ---------------------------------------------------------------------------------
  // detect_bounds_endpoint: reuse or detect (lines 289-315)
  // ---------------------------------------------------------------------------------

  /** What `detect_panel_bounds` did: bounds, a `ValueError`, or another exception. */
  datatype Detection = Detected(bounds: BoundsSchema.MapCanvasBounds) | DetectValueError | DetectFailed

  /** The bounds the endpoint goes on with, and whether they are the stored ones, or the status it fails with. */
  datatype BoundsChoice = Chosen(bounds: BoundsSchema.MapCanvasBounds, reused: bool) | ChoiceFailed(status: int)

  /** Line 293: stored bounds count as manual when their first canvas is confident enough. */
  const ManualConfidence: real := 0.75

  predicate Reusable(existing: Option<BoundsSchema.MapCanvasBounds>) {
    existing.Some? && |existing.value.canvases| > 0 && existing.value.canvases[0].confidence >= ManualConfidence
  }

  /** Lines 290-310. */
  function ChooseBounds(existing: Option<BoundsSchema.MapCanvasBounds>, detection: Detection): (r: BoundsChoice)
    ensures Reusable(existing) ==> r == Chosen(existing.value, true)
    ensures !Reusable(existing) && detection.Detected? ==> r == Chosen(detection.bounds, false)
    ensures !Reusable(existing) && detection.DetectValueError? ==> r == ChoiceFailed(400)
    ensures !Reusable(existing) && detection.DetectFailed? ==> r == ChoiceFailed(500)
  {
    if existing.Some? && |existing.value.canvases| > 0 then
      if existing.value.canvases[0].confidence >= 0.75 then Chosen(existing.value, true)
      else RunDetection(detection)
    else RunDetection(detection)
  }

  /** Lines 297-310: running the detector. */
  function RunDetection(detection: Detection): BoundsChoice {
    match detection
    case Detected(b) => Chosen(b, false)
    case DetectValueError => ChoiceFailed(400)
    case DetectFailed => ChoiceFailed(500)
  }

  /**
   * Bounds entered through the corner form of `set_bounds` are reused by a later
   * detection request, whatever the detector would have found.
   */
  lemma ManualBoundsReused(uploadId: string, fs: seq<(string, Json)>, w: int, h: int, x0: int, y0: int, x1: int, y1: int,
                           detection: Detection)
    requires Lookup(fs, "width") == Some(JInt(w)) && Lookup(fs, "height") == Some(JInt(h))
    requires Lookup(fs, "corners") == Some(JObj([("top_left", JList([JInt(x0), JInt(y0)])),
                                                  ("bottom_right", JList([JInt(x1), JInt(y1)]))]))
    ensures var r := SetBoundsSpec(uploadId, Some(JObj(fs)), true);
      r.Saved? && ChooseBounds(Some(r.stored), detection) == Chosen(r.stored, true)
  {
    SimplifiedSaved(uploadId, fs, w, h, x0, y0, x1, y1);
  }

  // ---------------------------------------------------------------------------------
  // generate_overlay_preview_endpoint: the defaults (lines 376-458)
  // ---------------------------------------------------------------------------------

  /** The first canvas from `i` on whose upper-cased name is one of `names`. */
  function FirstNamed(cs: seq<BoundsSchema.CanvasEntry>, names: seq<string>, i: nat): (r: Option<nat>)
    ensures r.Some? ==> (i <= r.value < |cs| && Upper(cs[r.value].name) in names
      && forall j :: i <= j < r.value ==> Upper(cs[j].name) !in names)
    ensures r.None? ==> forall j :: i <= j < |cs| ==> Upper(cs[j].name) !in names
    decreases |cs| - i
  {
    if i >= |cs| then None
    else if Upper(cs[i].name) in names then Some(i)
    else FirstNamed(cs, names, i + 1)
  }

  /** Line 391: the first canvas named CONUS in any case, else the first canvas. */
  function ConusCanvas(cs: seq<BoundsSchema.CanvasEntry>): (c: BoundsSchema.CanvasEntry)
    requires |cs| > 0
    ensures c in cs
    ensures (exists j :: 0 <= j < |cs| && Upper(cs[j].name) == "CONUS") ==> Upper(c.name) == "CONUS"
  {
    var i := FirstNamed(cs, ["CONUS"], 0);
    if i.Some? then cs[i.value] else cs[0]
  }

  /** The clockwise rectangle TL, TR, BR, BL of a bbox. */
  function BboxRect(b: BoundsSchema.Bbox): (r: seq<BoundsSchema.Point>)
    ensures |r| == 4 && r[0] == (b.x0, b.y0) && r[2] == (b.x1, b.y1)
  {
    [(b.x0, b.y0), (b.x1, b.y0), (b.x1, b.y1), (b.x0, b.y1)]
  }

  /** Lines 393-397: the stored polygon when it has three points or more, else the bbox rectangle. */
  function PreviewPolygon(c: BoundsSchema.CanvasEntry): (r: seq<BoundsSchema.Point>)
    ensures |r| >= 3
    ensures c.polygon.Some? && |c.polygon.value| >= 3 ==> r == c.polygon.value
    ensures !(c.polygon.Some? && |c.polygon.value| >= 3) ==> r == BboxRect(c.bbox)
  {
    if c.polygon.Some? && |c.polygon.value| >= 3 then c.polygon.value else BboxRect(c.bbox)
  }

  /** Lines 400-406: the stored rect4 when it has exactly four points, else the bbox rectangle. */
  function PreviewRect4(c: BoundsSchema.CanvasEntry): (r: seq<BoundsSchema.Point>)
    ensures |r| == 4
    ensures c.rect4.Some? && |c.rect4.value| == 4 ==> r == c.rect4.value
    ensures !(c.rect4.Some? && |c.rect4.value| == 4) ==> r == BboxRect(c.bbox)
  {
    if c.rect4.Some? && |c.rect4.value| == 4 then c.rect4.value else BboxRect(c.bbox)
  }

  /** The `{"x", "y", "width", "height"}` selection lines 437-442 and 453-458 build. */
  function SelectionBox(x0: int, y0: int, x1: int, y1: int): Json {
    JObj([("x", JInt(x0)), ("y", JInt(y0)), ("width", JInt(x1 - x0)), ("height", JInt(y1 - y0))])
  }

  /** The corners a region selection is taken from: rect4's first and third points, or the bbox. */
  function RegionCorners(c: BoundsSchema.CanvasEntry): (BoundsSchema.Point, BoundsSchema.Point) {
    if c.rect4.Some? && |c.rect4.value| == 4 then (c.rect4.value[0], c.rect4.value[2])
    else ((c.bbox.x0, c.bbox.y0), (c.bbox.x1, c.bbox.y1))
  }

  /**
   * Lines 428-458 for one region: when the bounds have a canvas for it and no selection
   * was supplied for it, the selection is filled from the canvas (and its rect4 kept
   * beside it). `None` when the selections are not a dictionary.
   */
  function FillRegion(sel: Json, canvas: Option<BoundsSchema.CanvasEntry>, key: string, rectKey: string): Option<Json> {
    if canvas.None? then Some(sel)
    else
      var current := Get(sel, key, JNull);
      if current.None? then None
      else if Truthy(current.value) then Some(sel)
      else
        var c := canvas.value;
        var corners := RegionCorners(c);
        var box := SelectionBox(corners.0.0, corners.0.1, corners.1.0, corners.1.1);
        if c.rect4.Some? && |c.rect4.value| == 4 then
          Some(JObj(Put(Put(sel.fields, rectKey, BoundsSchema.DumpPoints(c.rect4.value)), key, box)))
        else Some(JObj(Put(sel.fields, key, box)))
  }

  /**
   * A supplied selection is never overwritten; a missing one is filled with the box from
   * rect4[0] to rect4[2] when the canvas has a four-point rect4, else with its bbox; and
   * no other key of the selections changes but the rect4 one.
   */
  lemma {:induction false} FillRegionMeaning(sel: Json, c: BoundsSchema.CanvasEntry, key: string, rectKey: string)
    requires sel.JObj? && key != rectKey
    ensures var r := FillRegion(sel, Some(c), key, rectKey);
      r.Some? && r.value.JObj?
      && (Truthy(Get(sel, key, JNull).value) ==> r.value == sel)
      && (!Truthy(Get(sel, key, JNull).value) ==>
            (var (p, q) := RegionCorners(c);
             Lookup(r.value.fields, key) == Some(SelectionBox(p.0, p.1, q.0, q.1))
             && (forall k :: k != key && k != rectKey ==> Lookup(r.value.fields, k) == Lookup(sel.fields, k))
             && (c.rect4.Some? && |c.rect4.value| == 4 ==> Lookup(r.value.fields, rectKey) == Some(BoundsSchema.DumpPoints(c.rect4.value)))
             && (!(c.rect4.Some? && |c.rect4.value| == 4) ==> Lookup(r.value.fields, rectKey) == Lookup(sel.fields, rectKey))))
  {
    if !Truthy(Get(sel, key, JNull).value) {
      var corners := RegionCorners(c);
      var box := SelectionBox(corners.0.0, corners.0.1, corners.1.0, corners.1.1);
      if c.rect4.Some? && |c.rect4.value| == 4 {
        var r4 := BoundsSchema.DumpPoints(c.rect4.value);
        var s1 := Put(sel.fields, rectKey, r4);
        PutRemoveOthers(s1, key, box, rectKey);
        forall k | k != key && k != rectKey
          ensures Lookup(Put(s1, key, box), k) == Lookup(sel.fields, k)
        {
          PutRemoveOthers(sel.fields, rectKey, r4, k);
          PutRemoveOthers(s1, key, box, k);
        }
      } else {
        forall k | k != key
          ensures Lookup(Put(sel.fields, key, box), k) == Lookup(sel.fields, k)
        {
          PutRemoveOthers(sel.fields, key, box, k);
        }
      }
    }
  }

  /** What the preview hands to the overlay renderer. */
  datatype PreviewArgs = PreviewArgs(bbox: BoundsSchema.Bbox, polygon: seq<BoundsSchema.Point>,
                                     rect4: seq<BoundsSchema.Point>, projection: string, selections: Json)

  datatype Preview =
    | MissingUploadId      // 400, line 382
    | BoundsNotFound       // 404, line 389
    | BadSelections        // 400, line 419
    | PreviewFailed        // 500, line 520
    | PreviewReady(args: PreviewArgs)

  /**
   * Lines 379-458. `store` is the bounds store keyed by sanitised id, and `parse` the
   * JSON parser applied to the stripped `region_selections` form field.
   */
  function PreviewSpec(uploadId: Option<string>, store: string -> Option<BoundsSchema.MapCanvasBounds>,
                       projection: Option<string>, selections: Option<string>, parse: string -> Option<Json>): (r: Preview)
    ensures r.PreviewReady? ==> |r.args.polygon| >= 3 && |r.args.rect4| == 4 && r.args.projection in ["4326", "5070"]
  {
    if uploadId.None? || |uploadId.value| == 0 then MissingUploadId
    else PreviewFor(store(SanitiseUploadId(uploadId.value)), projection, selections, parse)
  }

  /** Lines 384-458, once the stored bounds are looked up. */
  function PreviewFor(bounds: Option<BoundsSchema.MapCanvasBounds>, projection: Option<string>, selections: Option<string>,
                      parse: string -> Option<Json>): (r: Preview)
    ensures r.PreviewReady? ==> |r.args.polygon| >= 3 && |r.args.rect4| == 4 && r.args.projection in ["4326", "5070"]
  {
    if bounds.None? || |bounds.value.canvases| == 0 then BoundsNotFound
    else
      var parsed := ParseSelections(selections, parse);
      if parsed.None? then BadSelections
      else
        var filled := FillSelections(parsed.value, bounds.value.canvases);
        if filled.None? then PreviewFailed
        else PreviewReady(PreviewOf(ConusCanvas(bounds.value.canvases), Projection(projection), filled.value))
  }

  /** Lines 398-406: what the preview draws for a canvas. */
  function PreviewOf(conus: BoundsSchema.CanvasEntry, projection: string, selections: Json): (a: PreviewArgs)
    ensures |a.polygon| >= 3 && |a.rect4| == 4
  {
    PreviewArgs(conus.bbox, PreviewPolygon(conus), PreviewRect4(conus), projection, selections)
  }

  /** Lines 413-419: the stripped form field parsed when it is not blank; `None` when it does not parse. */
  function ParseSelections(selections: Option<string>, parse: string -> Option<Json>): Option<Json> {
    var raw := Strip(if selections.Some? then selections.value else "");
    if |raw| > 0 then parse(raw) else Some(JNull)
  }

  /** Lines 422-458: falsy selections become `{}`, then Alaska and Hawaii are filled in turn. */
  function FillSelections(parsed: Json, cs: seq<BoundsSchema.CanvasEntry>): Option<Json> {
    var base := if Truthy(parsed) then parsed else JObj([]);
    var alaska := FirstNamed(cs, ["ALASKA", "AK"], 0);
    var hawaii := FirstNamed(cs, ["HAWAII", "HI"], 0);
    var s1 := FillRegion(base, if alaska.Some? then Some(cs[alaska.value]) else None, "alaska", "alaska_rect4");
    if s1.None? then None
    else FillRegion(s1.value, if hawaii.Some? then Some(cs[hawaii.value]) else None, "hawaii", "hawaii_rect4")
  }

  // ---------------------------------------------------------------------------------
  // GEOIDs of the alignment endpoint (lines 734-744, 766-776)
  // ---------------------------------------------------------------------------------

  /** The shapefile columns the GEOID may be built from, as strings, one per row. */
  datatype Columns = Columns(geoid: Option<seq<string>>, geoId: Option<seq<string>>,
                             stateFp: Option<seq<string>>, countyFp: Option<seq<string>>, rows: nat)

  predicate ColumnsFit(t: Columns) {
    (t.geoid.Some? ==> |t.geoid.value| == t.rows) && (t.geoId.Some? ==> |t.geoId.value| == t.rows)
    && (t.stateFp.Some? ==> |t.stateFp.value| == t.rows) && (t.countyFp.Some? ==> |t.countyFp.value| == t.rows)
  }

  /** Lines 735-744 for row `i`. */
  function GeoidAt(t: Columns, i: nat): string
    requires ColumnsFit(t) && i < t.rows
  {
    if t.geoid.Some? then ZFill(t.geoid.value[i], 5)
    else if t.geoId.Some? then ZFill(t.geoId.value[i], 5)
    else if t.countyFp.Some? && t.stateFp.Some? then ZFill(t.stateFp.value[i], 2) + ZFill(t.countyFp.value[i], 3)
    else ZFill(NatToString(i), 5)
  }

  /** Lines 734-744: the GEOID column. */
  function GeoidColumn(t: Columns): (gs: seq<string>)
    requires ColumnsFit(t)
    ensures |gs| == t.rows
  {
    seq(t.rows, i requires 0 <= i < t.rows => GeoidAt(t, i))
  }

  /**
   * Every GEOID has five characters or more; it is the GEOID column padded when there is
   * one, else the GEO_ID column padded, else two state digits before three county digits,
   * else the padded row number.
   */
  lemma GeoidPriority(t: Columns, i: nat)
    requires ColumnsFit(t) && i < t.rows
    ensures var g := GeoidColumn(t)[i];
      |g| >= 5
      && (t.geoid.Some? ==> g == ZFill(t.geoid.value[i], 5))
      && (t.geoid.None? && t.geoId.Some? ==> g == ZFill(t.geoId.value[i], 5))
      && (t.geoid.None? && t.geoId.None? && t.stateFp.Some? && t.countyFp.Some? ==>
            g[..|ZFill(t.stateFp.value[i], 2)|] == ZFill(t.stateFp.value[i], 2))
      && (t.geoid.None? && t.geoId.None? && (t.stateFp.None? || t.countyFp.None?) ==> g == ZFill(NatToString(i), 5))
  {
    var g := GeoidColumn(t)[i];
    if t.geoid.None? && t.geoId.None? && t.stateFp.Some? && t.countyFp.Some? {
      var a := ZFill(t.stateFp.value[i], 2);
      assert g == a + ZFill(t.countyFp.value[i], 3);
      assert g[..|a|] == a;
    }
  }

  /** Line 767: the GEOID of a selected point, padded to five. */
  function PointGeoid(s: string): (g: string)
    ensures |g| >= 5
    ensures |s| >= 5 ==> g == s
  {
    ZFill(s, 5)
  }

  /** Line 768: the first row whose GEOID is `g`; `None` is the "not found" answer of lines 770-776. */
  function FindCounty(gs: seq<string>, g: string, i: nat): (r: Option<nat>)
    ensures r.Some? ==> i <= r.value < |gs| && gs[r.value] == g && forall j :: i <= j < r.value ==> gs[j] != g
    ensures r.None? ==> forall j :: i <= j < |gs| ==> gs[j] != g
    decreases |gs| - i
  {
    if i >= |gs| then None else if gs[i] == g then Some(i) else FindCounty(gs, g, i + 1)
  }

  /**
   * A selected point whose geoid lost its leading zero is matched to the county built
   * from state "6" and county "37": both sides pad to "06037".
   */
  lemma PaddedGeoidsMeet()
    ensures PointGeoid("6037") == "06037"
    ensures ZFill("6", 2) + ZFill("37", 3) == "06037"
    ensures FindCounty(GeoidColumn(Columns(None, None, Some(["6"]), Some(["37"]), 1)), PointGeoid("6037"), 0) == Some(0)
  {
    assert ZFill("6037", 5) == "0" + "6037" by { assert Repeat('0', 1) == "0"; }
    assert ZFill("6", 2) == "06" by { assert Repeat('0', 1) == "0"; }
    assert ZFill("37", 3) == "037" by { assert Repeat('0', 1) == "0"; }
    var t := Columns(None, None, Some(["6"]), Some(["37"]), 1);
    assert GeoidColumn(t)[0] == "06037";
  }

  /**
   * The preview draws the CONUS canvas (the first canvas when none is named so): its
   * bbox, its polygon or the bbox rectangle, its rect4 or the clockwise bbox rectangle.
   */
  lemma PreviewUsesConus(uploadId: Option<string>, store: string -> Option<BoundsSchema.MapCanvasBounds>,
                         projection: Option<string>, selections: Option<string>, parse: string -> Option<Json>)
    requires PreviewSpec(uploadId, store, projection, selections, parse).PreviewReady?
    ensures uploadId.Some? && store(SanitiseUploadId(uploadId.value)).Some?
    ensures var cs := store(SanitiseUploadId(uploadId.value)).value.canvases;
      |cs| > 0
      && var c := ConusCanvas(cs); var a := PreviewSpec(uploadId, store, projection, selections, parse).args;
         a.bbox == c.bbox && a.polygon == PreviewPolygon(c) && a.rect4 == PreviewRect4(c) && a.projection == Projection(projection)
  {
    var bounds := store(SanitiseUploadId(uploadId.value));
    assert PreviewSpec(uploadId, store, projection, selections, parse) == PreviewFor(bounds, projection, selections, parse);
    PreviewForConus(bounds, projection, selections, parse);
  }

  lemma PreviewForConus(bounds: Option<BoundsSchema.MapCanvasBounds>, projection: Option<string>, selections: Option<string>,
                        parse: string -> Option<Json>)
    requires PreviewFor(bounds, projection, selections, parse).PreviewReady?
    ensures bounds.Some? && |bounds.value.canvases| > 0
    ensures var c := ConusCanvas(bounds.value.canvases); var a := PreviewFor(bounds, projection, selections, parse).args;
      a.bbox == c.bbox && a.polygon == PreviewPolygon(c) && a.rect4 == PreviewRect4(c) && a.projection == Projection(projection)
  {
    var parsed := ParseSelections(selections, parse);
    var filled := FillSelections(parsed.value, bounds.value.canvases);
    assert PreviewFor(bounds, projection, selections, parse).args
      == PreviewOf(ConusCanvas(bounds.value.canvases), Projection(projection), filled.value);
  }

  /** A dictionary of selections that already names Alaska keeps that selection. */
  lemma SuppliedSelectionKept(sel: Json, cs: seq<BoundsSchema.CanvasEntry>, given: Json)
    requires sel.JObj? && Lookup(sel.fields, "alaska") == Some(given) && Truthy(given)
    ensures FillSelections(sel, cs).Some? && FillSelections(sel, cs).value.JObj?
    ensures Lookup(FillSelections(sel, cs).value.fields, "alaska") == Some(given)
  {
    var alaska := FirstNamed(cs, ["ALASKA", "AK"], 0);
    var hawaii := FirstNamed(cs, ["HAWAII", "HI"], 0);
    var s1 := FillRegion(sel, if alaska.Some? then Some(cs[alaska.value]) else None, "alaska", "alaska_rect4");
    assert s1 == Some(sel);
    if hawaii.Some? {
      FillRegionMeaning(sel, cs[hawaii.value], "hawaii", "hawaii_rect4");
    }
  }

  /** Without a selection, an Alaska canvas with a four-point rect4 gives the box from its first to its third point. */
  lemma MissingSelectionFilled(cs: seq<BoundsSchema.CanvasEntry>, i: nat)
    requires i < |cs| && Upper(cs[i].name) == "ALASKA" && forall j :: 0 <= j < i ==> Upper(cs[j].name) !in ["ALASKA", "AK"]
    requires forall j :: 0 <= j < |cs| ==> Upper(cs[j].name) !in ["HAWAII", "HI"]
    requires cs[i].rect4.Some? && |cs[i].rect4.value| == 4
    ensures var r := FillSelections(JNull, cs); var p := cs[i].rect4.value[0]; var q := cs[i].rect4.value[2];
      r.Some? && r.value.JObj?
      && Lookup(r.value.fields, "alaska") == Some(SelectionBox(p.0, p.1, q.0, q.1))
      && Lookup(r.value.fields, "alaska_rect4") == Some(BoundsSchema.DumpPoints(cs[i].rect4.value))
  {
    assert FirstNamed(cs, ["ALASKA", "AK"], 0) == Some(i);
    FillRegionMeaning(JObj([]), cs[i], "alaska", "alaska_rect4");
  }
}

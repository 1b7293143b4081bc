/**
 * backend/utils/geo_align.py, the parts around the search: fitting a frame into a pixel
 * bbox, collecting the ring coordinates the search samples from, the overlap score of a
 * rasterised outline with the image's edge mask, and the choice of inset by that score.
 * The edge detector, the rasteriser and the clip by shapely's `intersection` are
 * parameters of the model.
 */
module GeoAlign {
  import opened Wrappers
  import opened Geometry

  /** A pixel bbox `(x0, y0, x1, y1)`, y pointing down. */
  datatype PixelBox = PixelBox(x0: int, y0: int, x1: int, y1: int)

  /** The floor of line 34-35 on a source extent. */
  const MinExtent: real := 0.000000001

  /** Lines 24-29: a positive inset moves every edge inwards; any other inset leaves the box. */
  function InsetBox(b: PixelBox, inset: int): PixelBox {
    if inset > 0 then PixelBox(b.x0 + inset, b.y0 + inset, b.x1 - inset, b.y1 - inset) else b
  }

  function MaxInt(a: int, b: int): int {
    if a >= b then a else b
  }

  function MaxReal(a: real, b: real): real {
    if a >= b then a else b
  }

  function MinReal(a: real, b: real): real {
    if a <= b then a else b
  }

  /** Lines 30-31: the target width and height, never below one pixel. */
  function TargetWidth(b: PixelBox, inset: int): int {
    MaxInt(1, InsetBox(b, inset).x1 - InsetBox(b, inset).x0)
  }

  function TargetHeight(b: PixelBox, inset: int): int {
    MaxInt(1, InsetBox(b, inset).y1 - InsetBox(b, inset).y0)
  }

  /** The map `_affine` applies: scale by `(sx, -sy)` about the origin, then translate. */
  datatype FitMap = FitMap(sx: real, sy: real, dx: real, dy: real)

  function FitPoint(m: FitMap, p: Pt): Pt {
    Pt(m.sx * p.x + m.dx, -m.sy * p.y + m.dy)
  }

  /**
   * Lines 24-62 on the frame's total bounds `src`: both scales are positive; with
   * `keep_aspect` they are the smaller of the two fill scales, without it each axis fills.
   */
  function BboxFit(bbox: PixelBox, src: Bounds, keepAspect: bool, inset: int): (m: FitMap)
    ensures m.sx > 0.0 && m.sy > 0.0
    ensures keepAspect ==> m.sx == m.sy
  {
    var b := InsetBox(bbox, inset);
    var w := TargetWidth(bbox, inset) as real;
    var h := TargetHeight(bbox, inset) as real;
    var wSrc := MaxReal(src.xmax - src.xmin, MinExtent);
    var hSrc := MaxReal(src.ymax - src.ymin, MinExtent);
    assert w / wSrc > 0.0 && h / hSrc > 0.0;
    if keepAspect then AspectFit(b.x0 as real, b.y0 as real, w, h, wSrc, hSrc, src)
    else FitMap(w / wSrc, h / hSrc, b.x0 as real - src.xmin * (w / wSrc), b.y0 as real + src.ymax * (h / hSrc))
  }

  /** Lines 38-53 with `keep_aspect`: the smaller fill scale on both axes, the box centred. */
  function AspectFit(x0: real, y0: real, w: real, h: real, wSrc: real, hSrc: real, src: Bounds): FitMap
    requires wSrc > 0.0 && hSrc > 0.0
  {
    var s := MinReal(w / wSrc, h / hSrc);
    FitMap(s, s, x0 + (w - wSrc * s) / 2.0 - src.xmin * s, y0 + h / 2.0 + (src.ymax + src.ymin) * s / 2.0)
  }

  /**
   * Without `keep_aspect`, and with neither extent below the floor nor the inset box
   * collapsed, the bounds land on the box edges: west on x0, east on x1, north on y0 and
   * south on y1.
   */
  lemma FitFillsBox(bbox: PixelBox, src: Bounds, inset: int, x: real, y: real)
    requires src.xmax - src.xmin >= MinExtent && src.ymax - src.ymin >= MinExtent
    requires InsetBox(bbox, inset).x1 - InsetBox(bbox, inset).x0 >= 1
    requires InsetBox(bbox, inset).y1 - InsetBox(bbox, inset).y0 >= 1
    ensures var m := BboxFit(bbox, src, false, inset); var b := InsetBox(bbox, inset);
      FitPoint(m, Pt(src.xmin, y)).x == b.x0 as real && FitPoint(m, Pt(src.xmax, y)).x == b.x1 as real
      && FitPoint(m, Pt(x, src.ymax)).y == b.y0 as real && FitPoint(m, Pt(x, src.ymin)).y == b.y1 as real
  {
    var m := BboxFit(bbox, src, false, inset);
    var b := InsetBox(bbox, inset);
    var w := (b.x1 - b.x0) as real;
    var h := (b.y1 - b.y0) as real;
    var wSrc := src.xmax - src.xmin;
    var hSrc := src.ymax - src.ymin;
    assert m.sx == w / wSrc && m.sy == h / hSrc;
    assert m.sx * src.xmax + m.dx == b.x0 as real + m.sx * wSrc;
    assert m.sx * wSrc == w;
    assert -m.sy * src.ymin + m.dy == b.y0 as real + m.sy * hSrc;
    assert m.sy * hSrc == h;
  }

  /** Within the source bounds, in a box of the source's extent and scaled by `s`. */
  lemma CentredSpan(lo: real, hi: real, v: real, s: real, ext: real, room: real, start: real)
    requires lo <= v <= hi && hi - lo <= ext && s > 0.0 && s * ext <= room
    ensures start <= s * v + (start + (room - ext * s) / 2.0 - lo * s) <= start + room
  {
    assert s * v + (start + (room - ext * s) / 2.0 - lo * s) == start + (room - ext * s) / 2.0 + s * (v - lo);
    assert 0.0 <= s * (v - lo) <= s * (hi - lo) <= s * ext;
  }

  /** The flipped row of a y within the bounds, centred in `h` rows below `top`. */
  lemma RowSpan(lo: real, hi: real, v: real, s: real, ext: real, h: real, top: real)
    requires lo <= v <= hi && hi - lo <= ext && s > 0.0 && s * ext <= h
    ensures top <= -s * v + (top + h / 2.0 + (hi + lo) * s / 2.0) <= top + h
  {
    var c := (hi + lo) / 2.0;
    assert -s * v + (top + h / 2.0 + (hi + lo) * s / 2.0) == top + h / 2.0 + s * (c - v);
    assert -(ext / 2.0) <= c - v <= ext / 2.0;
    assert -(s * ext / 2.0) <= s * (c - v) <= s * ext / 2.0;
  }

  lemma CentreLands(s: real, lo: real, ext: real, room: real, start: real, ylo: real, yhi: real, h: real, top: real)
    ensures s * (lo + ext / 2.0) + (start + (room - ext * s) / 2.0 - lo * s) == start + room / 2.0
    ensures -s * ((ylo + yhi) / 2.0) + (top + h / 2.0 + (yhi + ylo) * s / 2.0) == top + h / 2.0
  {
  }

  /** A scale no larger than `room / ext` fits `ext` into `room`. */
  lemma ScaleFits(s: real, room: real, ext: real)
    requires ext > 0.0 && 0.0 < s <= room / ext
    ensures s * ext <= room
  {
    assert s * ext <= (room / ext) * ext;
  }

  /**
   * With `keep_aspect` the fit is `AspectFit` on the inset box's corner, the target size and
   * the floored source extents, which are positive and cover the source bounds.
   */
  lemma BboxFitIsAspectFit(bbox: PixelBox, src: Bounds, inset: int)
    ensures var b := InsetBox(bbox, inset);
      var w := TargetWidth(bbox, inset) as real; var h := TargetHeight(bbox, inset) as real;
      var wSrc := MaxReal(src.xmax - src.xmin, MinExtent); var hSrc := MaxReal(src.ymax - src.ymin, MinExtent);
      w >= 1.0 && h >= 1.0 && wSrc >= MinExtent && hSrc >= MinExtent
      && src.xmax - src.xmin <= wSrc && src.ymax - src.ymin <= hSrc
      && BboxFit(bbox, src, true, inset) == AspectFit(b.x0 as real, b.y0 as real, w, h, wSrc, hSrc, src)
  {
  }

  /** The common scale and the two centring translations of lines 38-53. */
  lemma AspectFitFields(x0: real, y0: real, w: real, h: real, wSrc: real, hSrc: real, src: Bounds)
    requires w > 0.0 && h > 0.0 && wSrc > 0.0 && hSrc > 0.0
    ensures var m := AspectFit(x0, y0, w, h, wSrc, hSrc, src);
      m.sx > 0.0 && m.sx == m.sy && m.sx * wSrc <= w && m.sx * hSrc <= h
      && m.dx == x0 + (w - wSrc * m.sx) / 2.0 - src.xmin * m.sx
      && m.dy == y0 + h / 2.0 + (src.ymax + src.ymin) * m.sx / 2.0
  {
    BothScalesFit(w, h, wSrc, hSrc);
  }

  /** The smaller of the two fill scales is positive and fits both extents. */
  lemma BothScalesFit(w: real, h: real, wSrc: real, hSrc: real)
    requires w > 0.0 && h > 0.0 && wSrc > 0.0 && hSrc > 0.0
    ensures MinReal(w / wSrc, h / hSrc) > 0.0
    ensures MinReal(w / wSrc, h / hSrc) * wSrc <= w && MinReal(w / wSrc, h / hSrc) * hSrc <= h
  {
    var s := MinReal(w / wSrc, h / hSrc);
    assert w / wSrc > 0.0 && h / hSrc > 0.0;
    ScaleFits(s, w, wSrc);
    ScaleFits(s, h, hSrc);
  }

  /** With `keep_aspect` every point of the source bounds lands inside the `W` by `H` box at the inset corner. */
  lemma FitKeepsAspectInside(bbox: PixelBox, src: Bounds, inset: int, p: Pt)
    requires src.xmin <= p.x <= src.xmax && src.ymin <= p.y <= src.ymax
    ensures var m := BboxFit(bbox, src, true, inset); var b := InsetBox(bbox, inset);
      var w := TargetWidth(bbox, inset) as real; var h := TargetHeight(bbox, inset) as real;
      b.x0 as real <= FitPoint(m, p).x <= b.x0 as real + w
      && b.y0 as real <= FitPoint(m, p).y <= b.y0 as real + h
  {
    var b := InsetBox(bbox, inset);
    var w := TargetWidth(bbox, inset) as real;
    var h := TargetHeight(bbox, inset) as real;
    var wSrc := MaxReal(src.xmax - src.xmin, MinExtent);
    var hSrc := MaxReal(src.ymax - src.ymin, MinExtent);
    BboxFitIsAspectFit(bbox, src, inset);
    AspectFitInside(b.x0 as real, b.y0 as real, w, h, wSrc, hSrc, src, p);
  }

  lemma AspectFitInside(x0: real, y0: real, w: real, h: real, wSrc: real, hSrc: real, src: Bounds, p: Pt)
    requires w > 0.0 && h > 0.0 && wSrc > 0.0 && hSrc > 0.0
    requires src.xmin <= p.x <= src.xmax && src.ymin <= p.y <= src.ymax
    requires src.xmax - src.xmin <= wSrc && src.ymax - src.ymin <= hSrc
    ensures var m := AspectFit(x0, y0, w, h, wSrc, hSrc, src);
      x0 <= FitPoint(m, p).x <= x0 + w && y0 <= FitPoint(m, p).y <= y0 + h
  {
    AspectFitFields(x0, y0, w, h, wSrc, hSrc, src);
    InsideOfFields(AspectFit(x0, y0, w, h, wSrc, hSrc, src), x0, y0, w, h, wSrc, hSrc, src, p);
  }

  lemma InsideOfFields(m: FitMap, x0: real, y0: real, w: real, h: real, wSrc: real, hSrc: real, src: Bounds, p: Pt)
    requires src.xmin <= p.x <= src.xmax && src.ymin <= p.y <= src.ymax
    requires src.xmax - src.xmin <= wSrc && src.ymax - src.ymin <= hSrc
    requires m.sx > 0.0 && m.sx == m.sy && m.sx * wSrc <= w && m.sx * hSrc <= h
    requires m.dx == x0 + (w - wSrc * m.sx) / 2.0 - src.xmin * m.sx
    requires m.dy == y0 + h / 2.0 + (src.ymax + src.ymin) * m.sx / 2.0
    ensures x0 <= FitPoint(m, p).x <= x0 + w && y0 <= FitPoint(m, p).y <= y0 + h
  {
    CentredSpan(src.xmin, src.xmax, p.x, m.sx, wSrc, w, x0);
    RowSpan(src.ymin, src.ymax, p.y, m.sx, hSrc, h, y0);
  }

  /**
   * With `keep_aspect` the centre of the (floored) source extent lands on the centre of the
   * box, and north stays up: a larger y gives a smaller pixel row.
   */
  lemma FitKeepsAspectCentre(bbox: PixelBox, src: Bounds, inset: int, p: Pt, q: Pt)
    requires p.y < q.y
    ensures var m := BboxFit(bbox, src, true, inset); var b := InsetBox(bbox, inset);
      var w := TargetWidth(bbox, inset) as real; var h := TargetHeight(bbox, inset) as real;
      FitPoint(m, Pt(src.xmin + MaxReal(src.xmax - src.xmin, MinExtent) / 2.0, (src.ymin + src.ymax) / 2.0))
        == Pt(b.x0 as real + w / 2.0, b.y0 as real + h / 2.0)
      && FitPoint(m, q).y < FitPoint(m, p).y
  {
    var b := InsetBox(bbox, inset);
    var w := TargetWidth(bbox, inset) as real;
    var h := TargetHeight(bbox, inset) as real;
    var wSrc := MaxReal(src.xmax - src.xmin, MinExtent);
    var hSrc := MaxReal(src.ymax - src.ymin, MinExtent);
    BboxFitIsAspectFit(bbox, src, inset);
    AspectFitCentre(b.x0 as real, b.y0 as real, w, h, wSrc, hSrc, src, p, q);
  }

  lemma AspectFitCentre(x0: real, y0: real, w: real, h: real, wSrc: real, hSrc: real, src: Bounds, p: Pt, q: Pt)
    requires w > 0.0 && h > 0.0 && wSrc > 0.0 && hSrc > 0.0 && p.y < q.y
    ensures var m := AspectFit(x0, y0, w, h, wSrc, hSrc, src);
      FitPoint(m, Pt(src.xmin + wSrc / 2.0, (src.ymin + src.ymax) / 2.0)) == Pt(x0 + w / 2.0, y0 + h / 2.0)
      && FitPoint(m, q).y < FitPoint(m, p).y
  {
    AspectFitFields(x0, y0, w, h, wSrc, hSrc, src);
    CentreOfFields(AspectFit(x0, y0, w, h, wSrc, hSrc, src), x0, y0, w, h, wSrc, src, p, q);
  }

  lemma CentreOfFields(m: FitMap, x0: real, y0: real, w: real, h: real, wSrc: real, src: Bounds, p: Pt, q: Pt)
    requires p.y < q.y && m.sx > 0.0 && m.sx == m.sy
    requires m.dx == x0 + (w - wSrc * m.sx) / 2.0 - src.xmin * m.sx
    requires m.dy == y0 + h / 2.0 + (src.ymax + src.ymin) * m.sx / 2.0
    ensures FitPoint(m, Pt(src.xmin + wSrc / 2.0, (src.ymin + src.ymax) / 2.0)) == Pt(x0 + w / 2.0, y0 + h / 2.0)
    ensures FitPoint(m, q).y < FitPoint(m, p).y
  {
    CentreLands(m.sx, src.xmin, wSrc, w, x0, src.ymin, src.ymax, h, y0);
    assert FitPoint(m, q).y - FitPoint(m, p).y == -m.sy * (q.y - p.y);
    var c := FitPoint(m, Pt(src.xmin + wSrc / 2.0, (src.ymin + src.ymax) / 2.0));
    assert c.x == x0 + w / 2.0 && c.y == y0 + h / 2.0;
  }

  /** `_affine` (lines 64-67) applied to every geometry of the frame. */
  function FittedFrame(fr: Frame, src: Bounds, bbox: PixelBox, keepAspect: bool, inset: int): Frame {
    var m := BboxFit(bbox, src, keepAspect, inset);
    TransformFrame(fr, p => FitPoint(m, p))
  }

  /** Lines 64-70; `None` where `scale(None, …)` at line 65 raises on a row without a geometry. */
  function FitGdfToBboxPixels(fr: Frame, src: Bounds, bbox: PixelBox, keepAspect: bool, inset: int): Option<Frame> {
    if HasMissing(fr) then None else Some(FittedFrame(fr, src, bbox, keepAspect, inset))
  }

  /**
   * The fit fails exactly when some row has no geometry; otherwise the fitted frame keeps
   * its rows, columns, CRS and every geometry's structure, and moves each coordinate by the fit.
   */
  lemma FitFrameShape(fr: Frame, src: Bounds, bbox: PixelBox, keepAspect: bool, inset: int)
    ensures FitGdfToBboxPixels(fr, src, bbox, keepAspect, inset).None? <==> HasMissing(fr)
    ensures var r := FitGdfToBboxPixels(fr, src, bbox, keepAspect, inset);
      var m := BboxFit(bbox, src, keepAspect, inset);
      r.Some? ==>
      |r.value.rows| == |fr.rows| && r.value.crs == fr.crs
      && forall i :: 0 <= i < |fr.rows| ==>
        r.value.rows[i].props == fr.rows[i].props && Shape(r.value.rows[i].geom) == Shape(fr.rows[i].geom)
        && !r.value.rows[i].geom.Missing?
        && Coords(r.value.rows[i].geom) == MapPts(p => FitPoint(m, p), Coords(fr.rows[i].geom))
  {
    var m := BboxFit(bbox, src, keepAspect, inset);
    var f := (p: Pt) => FitPoint(m, p);
    forall i | 0 <= i < |fr.rows| {
      TransformCoordsShape(f, fr.rows[i].geom);
    }
  }

  // ---------------------------------------------------------------------------------
  // Edge points (lines 80-110)
  // ---------------------------------------------------------------------------------

  /** The geometries lines 84-89 accept: everything else has no `exterior` and raises. */
  predicate HasRings(g: Geom) {
    IsEmpty(g) || g.Polygon? || g.MultiPolygon?
  }

  /** Line 89. */
  function PolygonsOf(g: Geom): seq<Poly>
    requires g.Polygon? || g.MultiPolygon?
  {
    if g.MultiPolygon? then g.polys else [g.poly]
  }

  /** Lines 97-101: the coordinates of every hole of at least three coordinates, in order. */
  function HolePoints(holes: seq<seq<Pt>>): seq<Pt> {
    if |holes| == 0 then []
    else
      var last := holes[|holes| - 1];
      HolePoints(holes[..|holes| - 1]) + (if |last| >= 3 then last else [])
  }

  /** Lines 92-101: a shell of fewer than three coordinates drops the whole polygon, holes too. */
  function PolyEdgePoints(p: Poly): seq<Pt> {
    if |p.exterior| < 3 then [] else p.exterior + HolePoints(p.holes)
  }

  function PolysEdgePoints(ps: seq<Poly>): seq<Pt> {
    if |ps| == 0 then [] else PolysEdgePoints(ps[..|ps| - 1]) + PolyEdgePoints(ps[|ps| - 1])
  }

  function GeomEdgePoints(g: Geom): seq<Pt>
    requires HasRings(g)
  {
    if IsEmpty(g) then [] else PolysEdgePoints(PolygonsOf(g))
  }

  /** Lines 84-101 over a column of geometries. */
  function EdgePoints(geoms: seq<Geom>): seq<Pt>
    requires forall i :: 0 <= i < |geoms| ==> HasRings(geoms[i])
  {
    if |geoms| == 0 then [] else EdgePoints(geoms[..|geoms| - 1]) + GeomEdgePoints(geoms[|geoms| - 1])
  }

  /** Every collected point is a coordinate of one of the kept rings, so it is a coordinate of the geometry. */
  lemma {:induction false} HolePointsAreCoords(holes: seq<seq<Pt>>, p: Pt)
    requires p in HolePoints(holes)
    ensures p in Flatten(holes)
  {
    var last := holes[|holes| - 1];
    var init := holes[..|holes| - 1];
    assert holes == init + [last];
    FlattenAppend(init, last);
    if p in HolePoints(init) {
      HolePointsAreCoords(init, p);
    }
  }

  lemma {:induction false} FlattenAppend(rs: seq<seq<Pt>>, r: seq<Pt>)
    ensures Flatten(rs + [r]) == Flatten(rs) + r
    decreases |rs|
  {
    if |rs| == 0 {
      assert rs + [r] == [r];
    } else {
      assert (rs + [r])[1..] == rs[1..] + [r];
      FlattenAppend(rs[1..], r);
    }
  }

  // ---------------------------------------------------------------------------------
  // Uniform sampling (lines 106-109): np.linspace(0, L - 1, n, dtype=int)
  // ---------------------------------------------------------------------------------

  lemma MulLe(a: int, b: int, d: int)
    requires a <= b && d > 0
    ensures a * d <= b * d
  {
  }

  lemma MulLtCancel(a: int, b: int, d: int)
    requires d > 0 && a * d > b * d
    ensures a > b
  {
    if a <= b {
      MulLe(a, b, d);
    }
  }

  lemma DivLower(x: int, c: int, d: int)
    requires d > 0 && x >= c * d
    ensures x / d >= c
  {
    var q := x / d;
    assert x == q * d + x % d;
    assert q * d > (c - 1) * d;
    MulLtCancel(q, c - 1, d);
  }

  lemma DivUpper(x: int, c: int, d: int)
    requires d > 0 && 0 <= x <= c * d
    ensures x / d <= c
  {
    var q := x / d;
    assert x == q * d + x % d;
    assert (c + 1) * d > q * d;
    MulLtCancel(c + 1, q, d);
  }

  /** The `k`-th of `n` evenly spaced indices from 0 to `L - 1`, truncated. */
  function SampleIndex(L: nat, n: nat, k: nat): (r: nat)
    requires 1 <= n && 1 <= L && k < n
    ensures r < L
  {
    if n == 1 then 0
    else
      DivUpper(k * (L - 1), L - 1, n - 1);
      k * (L - 1) / (n - 1)
  }

  /** `arr[indices]`. */
  function Subsample(arr: seq<Pt>, n: nat): (r: seq<Pt>)
    requires 1 <= n < |arr|
    ensures |r| == n
  {
    seq(n, k requires 0 <= k < n => arr[SampleIndex(|arr|, n, k)])
  }

  /** Line 106: sample only when `n_points` is truthy and smaller than the number of points. */
  predicate Samples(arr: seq<Pt>, nPoints: Option<nat>) {
    nPoints.Some? && nPoints.value != 0 && |arr| > nPoints.value
  }

  function Sample(arr: seq<Pt>, nPoints: Option<nat>): seq<Pt> {
    if Samples(arr, nPoints) then Subsample(arr, nPoints.value) else arr
  }

  /** The sampled indices start at 0 and end at `L - 1` when there are at least two. */
  lemma SampleIndexEnds(L: nat, n: nat)
    requires 1 <= n < L
    ensures SampleIndex(L, n, 0) == 0
    ensures n >= 2 ==> SampleIndex(L, n, n - 1) == L - 1
  {
    if n >= 2 {
      DivLower((n - 1) * (L - 1), L - 1, n - 1);
      DivUpper((n - 1) * (L - 1), L - 1, n - 1);
    }
  }

  /** With fewer samples than points the indices strictly increase, so the sample takes `n` distinct points in their order. */
  lemma SampleIndexIncreases(L: nat, n: nat, k: nat)
    requires 1 <= n < L && k + 1 < n
    ensures SampleIndex(L, n, k) < SampleIndex(L, n, k + 1)
  {
    var d := n - 1;
    var a := k * (L - 1);
    assert (k + 1) * (L - 1) == a + (L - 1);
    var q := a / d;
    assert a == q * d + a % d;
    assert a + (L - 1) >= (q + 1) * d;
    DivLower(a + (L - 1), q + 1, d);
  }

  /** The edge points after the optional sampling; see `SampleIndexIncreases` for the indices. */
  lemma SampleShape(arr: seq<Pt>, nPoints: Option<nat>)
    ensures !Samples(arr, nPoints) ==> Sample(arr, nPoints) == arr
    ensures Samples(arr, nPoints) ==>
      (|Sample(arr, nPoints)| == nPoints.value
       && Sample(arr, nPoints)[0] == arr[0]
       && (nPoints.value >= 2 ==> Sample(arr, nPoints)[nPoints.value - 1] == arr[|arr| - 1]))
  {
    if Samples(arr, nPoints) {
      SampleIndexEnds(|arr|, nPoints.value);
    }
  }

  /** Lines 80-110. */
  function ExtractEdgePointsSpec(geoms: seq<Geom>, nPoints: Option<nat>): seq<Pt>
    requires forall i :: 0 <= i < |geoms| ==> HasRings(geoms[i])
  {
    Sample(EdgePoints(geoms), nPoints)
  }

  /** Lines 97-101 for one polygon, appended to `pts`. */
  method AppendPolygon(pts: seq<Pt>, p: Poly) returns (r: seq<Pt>)
    ensures r == pts + PolyEdgePoints(p)
  {
    if |p.exterior| < 3 {
      return pts;
    }
    r := pts + p.exterior;
    var j := 0;
    while j < |p.holes|
      invariant 0 <= j <= |p.holes|
      invariant r == pts + p.exterior + HolePoints(p.holes[..j])
    {
      assert p.holes[..j + 1][..j] == p.holes[..j];
      if |p.holes[j]| >= 3 {
        r := r + p.holes[j];
      }
      j := j + 1;
    }
    assert p.holes[..|p.holes|] == p.holes;
  }

  lemma PolysStep(polys: seq<Poly>, j: nat)
    requires j < |polys|
    ensures PolysEdgePoints(polys[..j + 1]) == PolysEdgePoints(polys[..j]) + PolyEdgePoints(polys[j])
  {
    assert polys[..j + 1][..j] == polys[..j];
  }

  /** Lines 88-101: the polygons of one geometry, in order, appended to `pts`. */
  method AppendPolygons(pts: seq<Pt>, polys: seq<Poly>) returns (r: seq<Pt>)
    ensures r == pts + PolysEdgePoints(polys)
  {
    r := pts;
    var j := 0;
    while j < |polys|
      invariant 0 <= j <= |polys|
      invariant r == pts + PolysEdgePoints(polys[..j])
    {
      PolysStep(polys, j);
      ghost var before := PolysEdgePoints(polys[..j]);
      r := AppendPolygon(r, polys[j]);
      assert r == pts + (before + PolyEdgePoints(polys[j]));
      j := j + 1;
    }
    assert polys[..|polys|] == polys;
  }

  /** Lines 86-101 for one geometry. */
  method AppendGeometry(pts: seq<Pt>, g: Geom) returns (r: seq<Pt>)
    requires HasRings(g)
    ensures r == pts + GeomEdgePoints(g)
  {
    if IsEmpty(g) {
      return pts;
    }
    r := AppendPolygons(pts, PolygonsOf(g));
  }

  /** One more geometry of the column adds its own edge points after the earlier ones'. */
  lemma EdgePointsStep(geoms: seq<Geom>, i: nat)
    requires i < |geoms| && forall k :: 0 <= k <= i ==> HasRings(geoms[k])
    ensures EdgePoints(geoms[..i + 1]) == EdgePoints(geoms[..i]) + GeomEdgePoints(geoms[i])
  {
    assert geoms[..i + 1][..i] == geoms[..i];
  }

  /**
   * `_extract_shapefile_edge_points`, lines 80-110. `None` where line 89 raises: a non-empty
   * geometry that is neither a Polygon nor a MultiPolygon has no `exterior`.
   */
  method ExtractShapefileEdgePoints(geoms: seq<Geom>, nPoints: Option<nat>) returns (arr: Option<seq<Pt>>)
    ensures arr.Some? <==> forall i :: 0 <= i < |geoms| ==> HasRings(geoms[i])
    ensures arr.Some? ==> arr.value == ExtractEdgePointsSpec(geoms, nPoints)
  {
    var edge: seq<Pt> := [];
    var i := 0;
    while i < |geoms|
      invariant 0 <= i <= |geoms|
      invariant forall k :: 0 <= k < i ==> HasRings(geoms[k])
      invariant edge == EdgePoints(geoms[..i])
    {
      if !HasRings(geoms[i]) {
        return None;
      }
      EdgePointsStep(geoms, i);
      edge := AppendGeometry(edge, geoms[i]);
      i := i + 1;
    }
    assert geoms[..|geoms|] == geoms;
    if |edge| == 0 {
      return Some([]);
    }
    var a := edge;
    if nPoints.Some? && nPoints.value != 0 && |a| > nPoints.value {
      a := Subsample(a, nPoints.value);
    }
    return Some(a);
  }

  /** The geometry column of a frame. */
  function Geoms(fr: Frame): (gs: seq<Geom>)
    ensures |gs| == |fr.rows| && forall i :: 0 <= i < |fr.rows| ==> gs[i] == fr.rows[i].geom
  {
    seq(|fr.rows|, i requires 0 <= i < |fr.rows| => fr.rows[i].geom)
  }

  // ---------------------------------------------------------------------------------
  // Overlap score (lines 647-714)
  // ---------------------------------------------------------------------------------

  function CountTrue(m: seq<bool>): (c: nat)
    ensures c <= |m|
  {
    if |m| == 0 then 0 else CountTrue(m[..|m| - 1]) + (if m[|m| - 1] then 1 else 0)
  }

  /** `((line_arr > 0) & (edges > 0)).sum()`. */
  function CountBoth(a: seq<bool>, b: seq<bool>): nat
    requires |a| == |b|
  {
    if |a| == 0 then 0
    else CountBoth(a[..|a| - 1], b[..|b| - 1]) + (if a[|a| - 1] && b[|b| - 1] then 1 else 0)
  }

  /** The overlap never exceeds the outline's pixels, and equals them exactly when every outline pixel is an edge pixel. */
  lemma {:induction false} CountBothBound(line: seq<bool>, edges: seq<bool>)
    requires |line| == |edges|
    ensures CountBoth(line, edges) <= CountTrue(line)
    ensures CountBoth(line, edges) == CountTrue(line) <==> forall i :: 0 <= i < |line| && line[i] ==> edges[i]
  {
    if |line| > 0 {
      var n := |line| - 1;
      CountBothBound(line[..n], edges[..n]);
      if forall i :: 0 <= i < |line| && line[i] ==> edges[i] {
        assert forall i :: 0 <= i < n && line[..n][i] ==> edges[..n][i];
      } else {
        var i :| 0 <= i < |line| && line[i] && !edges[i];
        if i < n {
          assert line[..n][i] && !edges[..n][i];
        }
      }
    }
  }

  /**
   * `_edge_overlap_score` with the image's edge mask given (`None` when the image cannot
   * be read) and the outline rasterised at the image's size.
   */
  function EdgeOverlapScore(edges: Option<seq<bool>>, line: seq<bool>): (s: real)
    requires edges.Some? ==> |edges.value| == |line|
    ensures 0.0 <= s <= 1.0
    ensures edges.None? || CountTrue(line) == 0 ==> s == 0.0
  {
    if edges.None? then 0.0
    else
      CountBothBound(line, edges.value);
      CountBoth(line, edges.value) as real / MaxInt(1, CountTrue(line)) as real
  }

  /** A score of 1 means a readable image, a non-empty outline and every outline pixel on an edge pixel. */
  lemma PerfectOverlap(edges: Option<seq<bool>>, line: seq<bool>)
    requires edges.Some? ==> |edges.value| == |line|
    ensures EdgeOverlapScore(edges, line) == 1.0 <==>
      edges.Some? && CountTrue(line) > 0 && forall i :: 0 <= i < |line| && line[i] ==> edges.value[i]
  {
    if edges.Some? {
      CountBothBound(line, edges.value);
      var c := CountBoth(line, edges.value) as real;
      var d := MaxInt(1, CountTrue(line)) as real;
      assert c / d == 1.0 <==> c == d;
    }
  }

  // ---------------------------------------------------------------------------------
  // Inset choice (lines 717-769)
  // ---------------------------------------------------------------------------------

  /** geopandas' `is_empty`: a missing geometry is not empty. */
  predicate EmptyGeometry(g: Geom) {
    !g.Missing? && IsEmpty(g)
  }

  /** Lines 743-744: each geometry intersected with the clip polygon. */
  function ClipFrame(fr: Frame, clip: Geom -> Geom): (out: Frame)
    ensures |out.rows| == |fr.rows|
  {
    Frame(seq(|fr.rows|, i requires 0 <= i < |fr.rows| => Feature(fr.rows[i].props, clip(fr.rows[i].geom))), fr.crs)
  }

  function NonEmptyRows(rows: seq<Feature>): seq<Feature> {
    if |rows| == 0 then []
    else NonEmptyRows(rows[..|rows| - 1]) + (if EmptyGeometry(rows[|rows| - 1].geom) then [] else [rows[|rows| - 1]])
  }

  /** Line 745: the rows whose clipped geometry is not empty. */
  function DropEmpty(fr: Frame): Frame {
    Frame(NonEmptyRows(fr.rows), fr.crs)
  }

  /** What the rasteriser and the image decide: the edge mask and the outline drawn for a frame. */
  datatype Scoring = Scoring(edges: Option<seq<bool>>, raster: Frame -> seq<bool>)

  ghost predicate RasterFits(sc: Scoring) {
    forall fr :: sc.edges.Some? ==> |sc.raster(fr)| == |sc.edges.value|
  }

  function ScoreOf(sc: Scoring, fr: Frame): real
    requires RasterFits(sc)
  {
    EdgeOverlapScore(sc.edges, sc.raster(fr))
  }

  /**
   * Lines 700-705 raise AttributeError: once the image is read, every geometry that is
   * neither missing nor empty is taken as a polygon or a MultiPolygon and its `exterior`
   * read, which a point, a line or a collection does not have.
   */
  predicate ScoreRaises(sc: Scoring, fr: Frame) {
    sc.edges.Some? && exists i :: 0 <= i < |fr.rows| && !HasRings(fr.rows[i].geom)
  }

  /** `_edge_overlap_score` of a frame: `None` where lines 700-705 raise. */
  function FrameOverlapScore(sc: Scoring, fr: Frame): (s: Option<real>)
    requires RasterFits(sc)
    ensures s.None? <==> ScoreRaises(sc, fr)
    ensures s.Some? ==> 0.0 <= s.value <= 1.0 && s.value == ScoreOf(sc, fr)
  {
    if ScoreRaises(sc, fr) then None else Some(ScoreOf(sc, fr))
  }

  /** The inputs every candidate shares. */
  datatype FitInput = FitInput(shp: Frame, bounds: Bounds, bbox: PixelBox, keepAspect: bool, clip: Geom -> Geom)

  /** Lines 731-745: the clipped frame scored for one inset. */
  function CandidateFrame(inp: FitInput, inset: int): Frame {
    DropEmpty(ClipFrame(FittedFrame(inp.shp, inp.bounds, inp.bbox, inp.keepAspect, inset), inp.clip))
  }

  /** The clipped frame of every candidate, in order. */
  function CandidateFrames(inp: FitInput, cands: seq<int>): (frs: seq<Frame>)
    ensures |frs| == |cands| && forall i :: 0 <= i < |cands| ==> frs[i] == CandidateFrame(inp, cands[i])
  {
    seq(|cands|, i requires 0 <= i < |cands| => CandidateFrame(inp, cands[i]))
  }

  datatype Best = Best(index: Option<nat>, score: real)

  /** Lines 728-751 over the first `n` clipped candidate frames. */
  function AutoBest(sc: Scoring, frs: seq<Frame>, n: nat): (b: Best)
    requires RasterFits(sc) && n <= |frs|
    ensures b.index.Some? ==> b.index.value < n
  {
    if n == 0 then Best(None, -1.0)
    else
      var prev := AutoBest(sc, frs, n - 1);
      if |frs[n - 1].rows| == 0 then prev
      else if ScoreOf(sc, frs[n - 1]) > prev.score then Best(Some(n - 1), ScoreOf(sc, frs[n - 1]))
      else prev
  }

  /** The value returned: the frame, its score and its inset. */
  datatype InsetChoice = InsetChoice(frame: Frame, score: real, inset: int)

  /**
   * The loop of lines 730-751 raises: the first fit (line 731) meets a row without a
   * geometry, or some candidate's non-empty clipped frame makes its score raise.
   */
  predicate AutoinsetRaises(inp: FitInput, sc: Scoring, frs: seq<Frame>) {
    exists j :: 0 <= j < |frs| && CandidateRaises(inp, sc, frs, j)
  }

  /** Candidate `j`'s fit or score raises. */
  predicate CandidateRaises(inp: FitInput, sc: Scoring, frs: seq<Frame>, j: int)
    requires 0 <= j < |frs|
  {
    HasMissing(inp.shp) || (Scored(frs, j) && ScoreRaises(sc, frs[j]))
  }

  /** Lines 717-769; `None` where the loop raises or the fallback indexes an empty tuple. */
  function FitWithAutoinsetSpec(inp: FitInput, sc: Scoring, cands: seq<int>): Option<InsetChoice>
    requires RasterFits(sc)
  {
    var frs := CandidateFrames(inp, cands);
    var b := AutoBest(sc, frs, |frs|);
    if AutoinsetRaises(inp, sc, frs) then None
    else if b.index.Some? then
      Some(InsetChoice(frs[b.index.value], b.score, cands[b.index.value]))
    else if |cands| == 0 then None
    else
      var d := cands[|cands| / 2];
      Some(InsetChoice(ClipFrame(FittedFrame(inp.shp, inp.bounds, inp.bbox, inp.keepAspect, d), inp.clip), 0.0, d))
  }

  /**
   * Lines 731-750 for candidate `i`: `None` where the fit or the score raises, otherwise the
   * score when the clipped frame has rows.
   */
  method TryCandidate(inp: FitInput, sc: Scoring, cands: seq<int>, i: nat) returns (r: Option<Option<real>>)
    requires RasterFits(sc) && i < |cands|
    ensures r.None? <==> CandidateRaises(inp, sc, CandidateFrames(inp, cands), i)
    ensures r.Some? ==> (r.value.Some? <==> Scored(CandidateFrames(inp, cands), i))
    ensures r.Some? && r.value.Some? ==> r.value.value == ScoreOf(sc, CandidateFrames(inp, cands)[i])
  {
    var fitted := FitGdfToBboxPixels(inp.shp, inp.bounds, inp.bbox, inp.keepAspect, cands[i]);
    if fitted.None? {
      return None;
    }
    var clipped := DropEmpty(ClipFrame(fitted.value, inp.clip));
    assert clipped == CandidateFrames(inp, cands)[i];
    if |clipped.rows| == 0 {
      return Some(None);
    }
    var s := FrameOverlapScore(sc, clipped);
    if s.None? {
      return None;
    }
    return Some(Some(s.value));
  }

  /** One turn of the loop of lines 730-751: `None` where candidate `i` raises. */
  method CandidateStep(inp: FitInput, sc: Scoring, cands: seq<int>, i: nat, best: Best) returns (r: Option<Best>)
    requires RasterFits(sc) && i < |cands|
    requires best == AutoBest(sc, CandidateFrames(inp, cands), i)
    ensures r.None? <==> CandidateRaises(inp, sc, CandidateFrames(inp, cands), i)
    ensures r.Some? ==> r.value == AutoBest(sc, CandidateFrames(inp, cands), i + 1)
  {
    var t := TryCandidate(inp, sc, cands, i);
    if t.None? {
      return None;
    }
    if t.value.Some? && t.value.value > best.score {
      return Some(Best(Some(i), t.value.value));
    }
    return Some(best);
  }

  /** None of the first `n` candidates raises. */
  predicate NoneRaise(inp: FitInput, sc: Scoring, frs: seq<Frame>, n: nat)
    requires n <= |frs|
  {
    forall j :: 0 <= j < n ==> !CandidateRaises(inp, sc, frs, j)
  }

  lemma NoneRaiseStep(inp: FitInput, sc: Scoring, frs: seq<Frame>, i: nat)
    requires i < |frs| && NoneRaise(inp, sc, frs, i) && !CandidateRaises(inp, sc, frs, i)
    ensures NoneRaise(inp, sc, frs, i + 1)
  {
  }

  lemma NoneRaiseAll(inp: FitInput, sc: Scoring, frs: seq<Frame>)
    ensures NoneRaise(inp, sc, frs, |frs|) <==> !AutoinsetRaises(inp, sc, frs)
  {
  }

  /** Lines 728-751: the scoring loop over the candidate insets; `None` where it raises. */
  method BestCandidate(inp: FitInput, sc: Scoring, cands: seq<int>) returns (r: Option<Best>)
    requires RasterFits(sc)
    ensures r.None? <==> AutoinsetRaises(inp, sc, CandidateFrames(inp, cands))
    ensures r.Some? ==> r.value == AutoBest(sc, CandidateFrames(inp, cands), |cands|)
  {
    ghost var frs := CandidateFrames(inp, cands);
    var best := Best(None, -1.0);
    for i := 0 to |cands|
      invariant best == AutoBest(sc, frs, i)
      invariant NoneRaise(inp, sc, frs, i)
    {
      var next := CandidateStep(inp, sc, cands, i, best);
      if next.None? {
        return None;
      }
      NoneRaiseStep(inp, sc, frs, i);
      best := next.value;
    }
    NoneRaiseAll(inp, sc, frs);
    return Some(best);
  }

  /** `fit_with_autoinset`, lines 717-769. */
  method FitWithAutoinset(inp: FitInput, sc: Scoring, cands: seq<int>) returns (r: Option<InsetChoice>)
    requires RasterFits(sc)
    ensures r == FitWithAutoinsetSpec(inp, sc, cands)
  {
    var found := BestCandidate(inp, sc, cands);
    if found.None? {
      return None;
    }
    var best := found.value;
    if best.index.None? {
      if |cands| == 0 {
        return None;
      }
      assert !CandidateRaises(inp, sc, CandidateFrames(inp, cands), 0);
      var d := cands[|cands| / 2];
      var fitted := FitGdfToBboxPixels(inp.shp, inp.bounds, inp.bbox, inp.keepAspect, d);
      return Some(InsetChoice(ClipFrame(fitted.value, inp.clip), 0.0, d));
    }
    var k := best.index.value;
    return Some(InsetChoice(CandidateFrame(inp, cands[k]), best.score, cands[k]));
  }

  /** Candidate `j` has a non-empty clipped frame, so line 750 scores it. */
  predicate Scored(frs: seq<Frame>, j: int) {
    0 <= j < |frs| && |frs[j].rows| > 0
  }

  /** Nothing is tracked exactly when no candidate so far has a non-empty clipped frame. */
  lemma {:induction false} AutoBestNone(sc: Scoring, frs: seq<Frame>, n: nat)
    requires RasterFits(sc) && n <= |frs|
    ensures AutoBest(sc, frs, n).index.None? <==> forall j :: 0 <= j < n ==> !Scored(frs, j)
    ensures AutoBest(sc, frs, n).index.None? ==> AutoBest(sc, frs, n).score == -1.0
  {
    if n > 0 {
      AutoBestNone(sc, frs, n - 1);
      if |frs[n - 1].rows| > 0 {
        assert Scored(frs, n - 1);
        assert ScoreOf(sc, frs[n - 1]) >= 0.0;
      }
    }
  }

  /** The tracked best is a scored candidate, and its score is that candidate's. */
  lemma {:induction false} AutoBestScored(sc: Scoring, frs: seq<Frame>, n: nat)
    requires RasterFits(sc) && n <= |frs|
    ensures var b := AutoBest(sc, frs, n);
      b.index.Some? ==> Scored(frs, b.index.value) && b.score == ScoreOf(sc, frs[b.index.value])
  {
    if n > 0 {
      AutoBestScored(sc, frs, n - 1);
    }
  }

  /** No scored candidate beats the tracked best. */
  lemma {:induction false} AutoBestIsMax(sc: Scoring, frs: seq<Frame>, n: nat, j: nat)
    requires RasterFits(sc) && n <= |frs| && j < n && Scored(frs, j)
    ensures ScoreOf(sc, frs[j]) <= AutoBest(sc, frs, n).score
  {
    if j < n - 1 {
      AutoBestIsMax(sc, frs, n - 1, j);
    }
  }

  /** Every scored candidate before the tracked best scores strictly less: ties keep the earlier one. */
  lemma {:induction false} AutoBestIsFirst(sc: Scoring, frs: seq<Frame>, n: nat, j: nat)
    requires RasterFits(sc) && n <= |frs| && Scored(frs, j)
    requires AutoBest(sc, frs, n).index.Some? && j < AutoBest(sc, frs, n).index.value
    ensures ScoreOf(sc, frs[j]) < AutoBest(sc, frs, n).score
  {
    var prev := AutoBest(sc, frs, n - 1);
    if AutoBest(sc, frs, n) == prev {
      AutoBestIsFirst(sc, frs, n - 1, j);
    } else {
      AutoBestIsMax(sc, frs, n - 1, j);
    }
  }

  /**
   * The choice exists exactly when there are candidates and the loop does not raise; it is
   * the first best-scoring candidate whose clipped frame has rows, or, when every clipped
   * frame is empty, the middle candidate with score 0.
   */
  lemma AutoinsetChoice(inp: FitInput, sc: Scoring, cands: seq<int>)
    requires RasterFits(sc)
    ensures var r := FitWithAutoinsetSpec(inp, sc, cands); var frs := CandidateFrames(inp, cands);
      (r.Some? <==> |cands| > 0 && !AutoinsetRaises(inp, sc, frs))
      && (r.Some? && (exists j :: Scored(frs, j)) ==>
           exists k ::
             (Scored(frs, k)
              && r == Some(InsetChoice(CandidateFrame(inp, cands[k]), ScoreOf(sc, frs[k]), cands[k]))
              && (forall j :: Scored(frs, j) ==> ScoreOf(sc, frs[j]) <= r.value.score)
              && (forall j :: Scored(frs, j) && j < k ==> ScoreOf(sc, frs[j]) < r.value.score)))
      && (r.Some? && (forall j :: !Scored(frs, j)) ==>
          r.value.inset == cands[|cands| / 2] && r.value.score == 0.0)
  {
    var frs := CandidateFrames(inp, cands);
    var n := |cands|;
    AutoBestNone(sc, frs, n);
    AutoBestScored(sc, frs, n);
    var b := AutoBest(sc, frs, n);
    if b.index.Some? {
      var k := b.index.value;
      forall j | Scored(frs, j)
        ensures ScoreOf(sc, frs[j]) <= b.score
      {
        AutoBestIsMax(sc, frs, n, j);
      }
      forall j | Scored(frs, j) && j < k
        ensures ScoreOf(sc, frs[j]) < b.score
      {
        AutoBestIsFirst(sc, frs, n, j);
      }
    }
  }
}

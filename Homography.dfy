/**
 * backend/utils/homography.py: corner lists of a bounding box, 2x3 affine and 3x3
 * projective maps of a point, the linear systems whose solutions are those maps, the
 * geometry maps built on them, and the rect4-anchored affine fit of a GeoDataFrame.
 * The solvers (`np.linalg.lstsq`, `np.linalg.svd`) are not modelled; what the model proves
 * is what any exact solution of the systems they are given must satisfy.
 */
module Homography {
  import opened Wrappers
  import opened Geometry

  /** Lines 13-42: TL, TR, BR, BL, with "top" the larger y for geographic bounds and the smaller for pixels. */
  function RectBoundsToCorners(b: Bounds, isGeographic: bool): (cs: seq<Pt>)
    ensures |cs| == 4
  {
    if isGeographic then
      [Pt(b.xmin, b.ymax), Pt(b.xmax, b.ymax), Pt(b.xmax, b.ymin), Pt(b.xmin, b.ymin)]
    else
      [Pt(b.xmin, b.ymin), Pt(b.xmax, b.ymin), Pt(b.xmax, b.ymax), Pt(b.xmin, b.ymax)]
  }

  /** Twice the signed (shoelace) area of a closed ring of four points. */
  function ShoelaceSum(cs: seq<Pt>): real
    requires |cs| == 4
  {
    (cs[0].x * cs[1].y - cs[1].x * cs[0].y) + (cs[1].x * cs[2].y - cs[2].x * cs[1].y)
    + (cs[2].x * cs[3].y - cs[3].x * cs[2].y) + (cs[3].x * cs[0].y - cs[0].x * cs[3].y)
  }

  /** Consecutive corners lie on one edge of the box: they share their x or their y. */
  predicate SharesEdge(p: Pt, q: Pt) {
    p.x == q.x || p.y == q.y
  }

  lemma ShoelaceOfBox(a: real, b: real, c: real, d: real)
    ensures (a * c - b * c) + (b * d - b * c) + (b * d - a * d) + (a * c - a * d) == 2.0 * (b - a) * (d - c)
  {
  }

  /**
   * The geographic corners are the pixel corners of the box with its y-extent flipped,
   * consecutive corners share an edge of the box, and both orders run clockwise as drawn:
   * positive shoelace area with y pointing down, negative with y pointing up.
   */
  lemma CornersClockwise(b: Bounds)
    ensures RectBoundsToCorners(b, true) == RectBoundsToCorners(Bounds(b.xmin, b.ymax, b.xmax, b.ymin), false)
    ensures var cs := RectBoundsToCorners(b, false);
      SharesEdge(cs[0], cs[1]) && SharesEdge(cs[1], cs[2]) && SharesEdge(cs[2], cs[3]) && SharesEdge(cs[3], cs[0])
    ensures ShoelaceSum(RectBoundsToCorners(b, false)) == 2.0 * (b.xmax - b.xmin) * (b.ymax - b.ymin)
    ensures ShoelaceSum(RectBoundsToCorners(b, true)) == -2.0 * (b.xmax - b.xmin) * (b.ymax - b.ymin)
  {
    ShoelaceOfBox(b.xmin, b.xmax, b.ymin, b.ymax);
    ShoelaceOfBox(b.xmin, b.xmax, b.ymax, b.ymin);
  }

  /** A 2x3 affine matrix `[[a, b, c], [d, e, f]]`. */
  datatype Affine = Affine(a: real, b: real, c: real, d: real, e: real, f: real)

  /** Lines 80-84: `A @ [x, y, 1]`. */
  function ApplyAffine(p: Pt, m: Affine): Pt {
    Pt(m.a * p.x + m.b * p.y + m.c, m.d * p.x + m.e * p.y + m.f)
  }

  function Lerp(p: Pt, q: Pt, t: real): Pt {
    Pt((1.0 - t) * p.x + t * q.x, (1.0 - t) * p.y + t * q.y)
  }

  /** An affine map sends every point of a segment to the same fraction along the image segment. */
  lemma AffinePreservesLerp(p: Pt, q: Pt, t: real, m: Affine)
    ensures ApplyAffine(Lerp(p, q, t), m) == Lerp(ApplyAffine(p, m), ApplyAffine(q, m), t)
  {
    var lhs := ApplyAffine(Lerp(p, q, t), m);
    var rhs := Lerp(ApplyAffine(p, m), ApplyAffine(q, m), t);
    AffineRowLerp(m.a, m.b, m.c, p, q, t);
    assert lhs.x == rhs.x;
    AffineRowLerp(m.d, m.e, m.f, p, q, t);
    assert lhs.y == rhs.y;
  }

  /** One row `a x + b y + c` of an affine map commutes with interpolation. */
  lemma AffineRowLerp(a: real, b: real, c: real, p: Pt, q: Pt, t: real)
    ensures a * ((1.0 - t) * p.x + t * q.x) + b * ((1.0 - t) * p.y + t * q.y) + c
      == (1.0 - t) * (a * p.x + b * p.y + c) + t * (a * q.x + b * q.y + c)
  {
    var s := 1.0 - t;
    assert a * (s * p.x + t * q.x) == s * (a * p.x) + t * (a * q.x);
    assert b * (s * p.y + t * q.y) == s * (b * p.y) + t * (b * q.y);
    assert s * (a * p.x + b * p.y + c) == s * (a * p.x) + s * (b * p.y) + s * c;
    assert t * (a * q.x + b * q.y + c) == t * (a * q.x) + t * (b * q.y) + t * c;
    assert s * c + t * c == c;
  }

  const IdentityAffine: Affine := Affine(1.0, 0.0, 0.0, 0.0, 1.0, 0.0)

  lemma AffineIdentity(p: Pt)
    ensures ApplyAffine(p, IdentityAffine) == p
  {
  }

  /** Lines 64-67: the rows `[x, y, 1, 0, 0, 0]`, `[0, 0, 0, x, y, 1]` and right-hand sides `X`, `Y`. */
  function AffineRows(s: Pt, t: Pt): (seq<seq<real>>, seq<real>) {
    ([[s.x, s.y, 1.0, 0.0, 0.0, 0.0], [0.0, 0.0, 0.0, s.x, s.y, 1.0]], [t.x, t.y])
  }

  /** The system of lines 62-69 for the pairs of `zip(src3, dst3)`. */
  function AffineSystem(src: seq<Pt>, dst: seq<Pt>): (seq<seq<real>>, seq<real>)
    decreases |src|
  {
    if |src| == 0 || |dst| == 0 then ([], [])
    else
      var rest := AffineSystem(src[1..], dst[1..]);
      var (rows, rhs) := AffineRows(src[0], dst[0]);
      (rows + rest.0, rhs + rest.1)
  }

  function Dot6(u: seq<real>, v: seq<real>): real
    requires |u| == 6 && |v| == 6
  {
    u[0] * v[0] + u[1] * v[1] + u[2] * v[2] + u[3] * v[3] + u[4] * v[4] + u[5] * v[5]
  }

  /** `params.reshape(2, 3)`. */
  function AffineOf(params: seq<real>): Affine
    requires |params| == 6
  {
    Affine(params[0], params[1], params[2], params[3], params[4], params[5])
  }

  /** Lines 62-67 as a loop: two rows and two right-hand sides per correspondence. */
  method BuildAffineSystem(src: seq<Pt>, dst: seq<Pt>) returns (rows: seq<seq<real>>, rhs: seq<real>)
    ensures (rows, rhs) == AffineSystem(src, dst)
  {
    var n := if |src| < |dst| then |src| else |dst|;
    rows, rhs := [], [];
    var i := n;
    while i > 0
      invariant 0 <= i <= n
      invariant (rows, rhs) == AffineSystem(src[i..], dst[i..])
    {
      i := i - 1;
      assert src[i..][1..] == src[i + 1..] && dst[i..][1..] == dst[i + 1..];
      var (r, b) := AffineRows(src[i], dst[i]);
      rows, rhs := r + rows, b + rhs;
    }
    assert src[0..] == src && dst[0..] == dst;
  }

  /**
   * An exact solution of one correspondence's two equations is an affine matrix that
   * sends that source point to its destination, and conversely.
   */
  lemma AffineRowsExact(s: Pt, t: Pt, params: seq<real>)
    requires |params| == 6
    ensures var (rows, rhs) := AffineRows(s, t);
      (Dot6(rows[0], params) == rhs[0] && Dot6(rows[1], params) == rhs[1])
      <==> ApplyAffine(s, AffineOf(params)) == t
  {
  }

  /** A 3x3 matrix, row by row. */
  datatype Mat3 = Mat3(h00: real, h01: real, h02: real,
                       h10: real, h11: real, h12: real,
                       h20: real, h21: real, h22: real)

  const IdentityH: Mat3 := Mat3(1.0, 0.0, 0.0, 0.0, 1.0, 0.0, 0.0, 0.0, 1.0)

  /** The third component `w` of `H @ [x, y, 1]`. */
  function Denominator(m: Mat3, p: Pt): real {
    m.h20 * p.x + m.h21 * p.y + m.h22
  }

  /**
   * Lines 165-174: `(w[0] / w[2], w[1] / w[2])`; `None` when `w[2]` is zero, where numpy
   * yields non-finite coordinates.
   */
  function ApplyH(m: Mat3, p: Pt): (r: Option<Pt>)
    ensures r.None? <==> Denominator(m, p) == 0.0
  {
    var w := Denominator(m, p);
    if w == 0.0 then None
    else Some(Pt((m.h00 * p.x + m.h01 * p.y + m.h02) / w, (m.h10 * p.x + m.h11 * p.y + m.h12) / w))
  }

  /** The first two components of `H @ [x, y, 1]`. */
  function NumX(m: Mat3, p: Pt): real {
    m.h00 * p.x + m.h01 * p.y + m.h02
  }

  function NumY(m: Mat3, p: Pt): real {
    m.h10 * p.x + m.h11 * p.y + m.h12
  }

  lemma ApplyHValue(m: Mat3, p: Pt)
    requires Denominator(m, p) != 0.0
    ensures ApplyH(m, p) == Some(Pt(NumX(m, p) / Denominator(m, p), NumY(m, p) / Denominator(m, p)))
  {
    var w := Denominator(m, p);
    assert ApplyH(m, p).Some?;
    assert ApplyH(m, p).value.x == NumX(m, p) / w;
    assert ApplyH(m, p).value.y == NumY(m, p) / w;
  }

  function ScaleMat(m: Mat3, c: real): Mat3 {
    Mat3(c * m.h00, c * m.h01, c * m.h02, c * m.h10, c * m.h11, c * m.h12, c * m.h20, c * m.h21, c * m.h22)
  }

  lemma ApplyHIdentity(p: Pt)
    ensures ApplyH(IdentityH, p) == Some(p)
  {
  }

  lemma ScaledForm(c: real, a: real, b: real, k: real, x: real, y: real)
    ensures (c * a) * x + (c * b) * y + c * k == c * (a * x + b * y + k)
  {
  }

  lemma DivCancel(c: real, u: real, w: real)
    requires c != 0.0 && w != 0.0
    ensures (c * u) / (c * w) == u / w
  {
    var q := u / w;
    assert q * w == u;
    assert q * (c * w) == c * u;
  }

  lemma ScaleDenominator(m: Mat3, c: real, p: Pt)
    ensures Denominator(ScaleMat(m, c), p) == c * Denominator(m, p)
  {
    ScaledForm(c, m.h20, m.h21, m.h22, p.x, p.y);
  }

  lemma ScaleNumX(m: Mat3, c: real, p: Pt)
    ensures NumX(ScaleMat(m, c), p) == c * NumX(m, p)
  {
    ScaledForm(c, m.h00, m.h01, m.h02, p.x, p.y);
  }

  lemma ScaleNumY(m: Mat3, c: real, p: Pt)
    ensures NumY(ScaleMat(m, c), p) == c * NumY(m, p)
  {
    ScaledForm(c, m.h10, m.h11, m.h12, p.x, p.y);
  }

  /** A homography is defined up to scale: multiplying it by any non-zero constant maps every point the same. */
  lemma ApplyHScale(m: Mat3, c: real, p: Pt)
    requires c != 0.0
    ensures ApplyH(ScaleMat(m, c), p) == ApplyH(m, p)
  {
    var sm := ScaleMat(m, c);
    var w := Denominator(m, p);
    ScaleDenominator(m, c, p);
    ScaleNumX(m, c, p);
    ScaleNumY(m, c, p);
    if w != 0.0 {
      DivCancel(c, NumX(m, p), w);
      DivCancel(c, NumY(m, p), w);
      ApplyHValue(m, p);
      ApplyHValue(sm, p);
      assert NumX(sm, p) / Denominator(sm, p) == (c * NumX(m, p)) / (c * w);
      assert NumY(sm, p) / Denominator(sm, p) == (c * NumY(m, p)) / (c * w);
      assert ApplyH(sm, p).value.x == ApplyH(m, p).value.x;
      assert ApplyH(sm, p).value.y == ApplyH(m, p).value.y;
    }
  }

  lemma DivOne(u: real, w: real)
    requires w == 1.0
    ensures u / w == u
  {
  }

  /** A matrix whose last row is `[0, 0, 1]` acts as the affine map of its first two rows. */
  lemma ApplyHAffine(m: Mat3, p: Pt)
    requires m.h20 == 0.0 && m.h21 == 0.0 && m.h22 == 1.0
    ensures ApplyH(m, p) == Some(ApplyAffine(p, Affine(m.h00, m.h01, m.h02, m.h10, m.h11, m.h12)))
  {
    assert Denominator(m, p) == 1.0;
    ApplyHValue(m, p);
    DivOne(NumX(m, p), Denominator(m, p));
    DivOne(NumY(m, p), Denominator(m, p));
    var af := Affine(m.h00, m.h01, m.h02, m.h10, m.h11, m.h12);
    assert ApplyAffine(p, af).x == NumX(m, p);
    assert ApplyAffine(p, af).y == NumY(m, p);
    assert ApplyH(m, p).value.x == NumX(m, p);
    assert ApplyH(m, p).value.y == NumY(m, p);
  }

  /**
   * Line 162: `H / H[2, 2]`; `None` when `H[2, 2]` is zero. The normalised matrix has a
   * unit corner and maps every point exactly as the original does.
   */
  function NormaliseH(m: Mat3): (r: Option<Mat3>)
    ensures r.None? <==> m.h22 == 0.0
    ensures r.Some? ==> r.value.h22 == 1.0
  {
    if m.h22 == 0.0 then None else Some(ScaleMat(m, 1.0 / m.h22))
  }

  lemma NormaliseHPreservesMap(m: Mat3, p: Pt)
    requires m.h22 != 0.0
    ensures ApplyH(NormaliseH(m).value, p) == ApplyH(m, p)
  {
    ApplyHScale(m, 1.0 / m.h22, p);
  }

  /** `H.flatten()`. */
  function Flat(m: Mat3): seq<real> {
    [m.h00, m.h01, m.h02, m.h10, m.h11, m.h12, m.h20, m.h21, m.h22]
  }

  function Dot9(u: seq<real>, v: seq<real>): real
    requires |u| == 9 && |v| == 9
  {
    u[0] * v[0] + u[1] * v[1] + u[2] * v[2] + u[3] * v[3] + u[4] * v[4]
    + u[5] * v[5] + u[6] * v[6] + u[7] * v[7] + u[8] * v[8]
  }

  /** Lines 144-149: the two rows `A_row(x, y, X, Y)` for the correspondence `s -> t`. */
  function DltRows(s: Pt, t: Pt): seq<seq<real>> {
    [[s.x, s.y, 1.0, 0.0, 0.0, 0.0, -t.x * s.x, -t.x * s.y, -t.x],
     [0.0, 0.0, 0.0, s.x, s.y, 1.0, -t.y * s.x, -t.y * s.y, -t.y]]
  }

  lemma DivIff(u: real, w: real, z: real)
    requires w != 0.0
    ensures u / w == z <==> u - z * w == 0.0
  {
    if u / w == z {
      assert u == (u / w) * w;
    }
  }

  lemma DltRowXExact(m: Mat3, s: Pt, t: Pt)
    requires Denominator(m, s) != 0.0
    ensures Dot9(DltRows(s, t)[0], Flat(m)) == 0.0 <==> NumX(m, s) / Denominator(m, s) == t.x
  {
    assert Dot9(DltRows(s, t)[0], Flat(m)) == NumX(m, s) - t.x * Denominator(m, s);
    DivIff(NumX(m, s), Denominator(m, s), t.x);
  }

  lemma DltRowYExact(m: Mat3, s: Pt, t: Pt)
    requires Denominator(m, s) != 0.0
    ensures Dot9(DltRows(s, t)[1], Flat(m)) == 0.0 <==> NumY(m, s) / Denominator(m, s) == t.y
  {
    assert Dot9(DltRows(s, t)[1], Flat(m)) == NumY(m, s) - t.y * Denominator(m, s);
    DivIff(NumY(m, s), Denominator(m, s), t.y);
  }

  /**
   * The point of the DLT rows: where `H` has a finite image of `s`, it maps `s` to `t`
   * exactly when both rows are orthogonal to the flattened `H`.
   */
  lemma DltRowsExact(m: Mat3, s: Pt, t: Pt)
    requires Denominator(m, s) != 0.0
    ensures var rows := DltRows(s, t);
      (Dot9(rows[0], Flat(m)) == 0.0 && Dot9(rows[1], Flat(m)) == 0.0) <==> ApplyH(m, s) == Some(t)
  {
    DltRowXExact(m, s, t);
    DltRowYExact(m, s, t);
    ApplyHValue(m, s);
  }

  /** Lines 151-155: the stacked rows for the pairs of `zip(src4, dst4)`. */
  function DltSystem(src: seq<Pt>, dst: seq<Pt>): (rows: seq<seq<real>>)
    ensures forall k :: 0 <= k < |rows| ==> |rows[k]| == 9
    decreases |src|
  {
    if |src| == 0 || |dst| == 0 then []
    else DltRows(src[0], dst[0]) + DltSystem(src[1..], dst[1..])
  }

  /** Lines 152-155 as a loop. */
  method BuildDltSystem(src: seq<Pt>, dst: seq<Pt>) returns (rows: seq<seq<real>>)
    ensures rows == DltSystem(src, dst)
  {
    var n := if |src| < |dst| then |src| else |dst|;
    rows := [];
    var i := n;
    while i > 0
      invariant 0 <= i <= n
      invariant rows == DltSystem(src[i..], dst[i..])
    {
      i := i - 1;
      assert src[i..][1..] == src[i + 1..] && dst[i..][1..] == dst[i + 1..];
      rows := DltRows(src[i], dst[i]) + rows;
    }
    assert src[0..] == src && dst[0..] == dst;
  }

  /** The system holds two rows per correspondence: rows `2k` and `2k + 1` belong to pair `k`. */
  lemma {:induction false} DltSystemRows(src: seq<Pt>, dst: seq<Pt>, k: nat)
    requires k < |src| && k < |dst|
    ensures 2 * k + 1 < |DltSystem(src, dst)|
    ensures DltSystem(src, dst)[2 * k] == DltRows(src[k], dst[k])[0]
    ensures DltSystem(src, dst)[2 * k + 1] == DltRows(src[k], dst[k])[1]
    decreases k
  {
    if k > 0 {
      DltSystemRows(src[1..], dst[1..], k - 1);
    }
  }

  predicate IsNullVector(rows: seq<seq<real>>, m: Mat3)
    requires forall k :: 0 <= k < |rows| ==> |rows[k]| == 9
  {
    forall k :: 0 <= k < |rows| ==> Dot9(rows[k], Flat(m)) == 0.0
  }

  /**
   * Lines 157-162: when the singular vector returned for the system is an exact null
   * vector and the normalisation is defined, the resulting homography sends every source
   * corner with a finite image to its destination corner; and any matrix that maps the
   * corners that way is such a null vector.
   */
  lemma HomographyFitsCorners(src: seq<Pt>, dst: seq<Pt>, m: Mat3, k: nat)
    requires k < |src| && k < |dst|
    requires IsNullVector(DltSystem(src, dst), m) && m.h22 != 0.0
    requires Denominator(m, src[k]) != 0.0
    ensures ApplyH(NormaliseH(m).value, src[k]) == Some(dst[k])
  {
    DltSystemRows(src, dst, k);
    DltRowsExact(m, src[k], dst[k]);
    NormaliseHPreservesMap(m, src[k]);
  }

  lemma {:induction false} ExactHomographyIsNullVector(src: seq<Pt>, dst: seq<Pt>, m: Mat3)
    requires forall k :: 0 <= k < |src| && k < |dst| ==> Denominator(m, src[k]) != 0.0 && ApplyH(m, src[k]) == Some(dst[k])
    ensures IsNullVector(DltSystem(src, dst), m)
    decreases |src|
  {
    if |src| > 0 && |dst| > 0 {
      DltRowsExact(m, src[0], dst[0]);
      ExactHomographyIsNullVector(src[1..], dst[1..], m);
      var rows := DltSystem(src, dst);
      assert rows == DltRows(src[0], dst[0]) + DltSystem(src[1..], dst[1..]);
    }
  }

  /** Lines 87-130: the affine map of every coordinate of a geometry. */
  function ApplyAffineToGeometry(g: Geom, m: Affine): Geom {
    MapGeometry(p => ApplyAffine(p, m), g)
  }

  /** Every coordinate of `g` has a finite image under `m`. */
  predicate FiniteUnder(m: Mat3, g: Geom) {
    forall k :: 0 <= k < |Coords(g)| ==> Denominator(m, Coords(g)[k]) != 0.0
  }

  /** `ApplyH` where it is defined; only ever applied to points where it is. */
  function Project(m: Mat3, p: Pt): Pt {
    var r := ApplyH(m, p);
    if r.Some? then r.value else p
  }

  /**
   * Lines 177-227: the projective map of every coordinate; `None` when some coordinate
   * is sent to infinity.
   */
  function ApplyHomographyToGeometry(g: Geom, m: Mat3): (r: Option<Geom>)
    ensures r.Some? <==> FiniteUnder(m, g)
  {
    if FiniteUnder(m, g) then Some(MapGeometry(p => Project(m, p), g)) else None
  }

  /**
   * Both geometry maps keep everything but the coordinates: type, parts, holes and ring
   * lengths (for every type the maps handle by name), and each coordinate is the
   * point map of the original one.
   */
  lemma AffineGeometryShape(g: Geom, m: Affine)
    requires !g.LinearRing?
    ensures Shape(ApplyAffineToGeometry(g, m)) == Shape(g)
    ensures Coords(ApplyAffineToGeometry(g, m)) == MapPts(p => ApplyAffine(p, m), Coords(g))
  {
    MapGeometryCases(p => ApplyAffine(p, m), g);
    TransformCoordsShape(p => ApplyAffine(p, m), g);
  }

  lemma HomographyGeometryShape(g: Geom, m: Mat3)
    requires !g.LinearRing? && FiniteUnder(m, g)
    ensures Shape(ApplyHomographyToGeometry(g, m).value) == Shape(g)
    ensures var cs := Coords(ApplyHomographyToGeometry(g, m).value);
      |cs| == |Coords(g)| && forall k :: 0 <= k < |cs| ==> Some(cs[k]) == ApplyH(m, Coords(g)[k])
  {
    var f := (p: Pt) => Project(m, p);
    MapGeometryCases(f, g);
    TransformCoordsShape(f, g);
  }

  /** `None` and empty geometries pass through both maps unchanged. */
  lemma GeometryMapsPassEmpty(g: Geom, a: Affine, m: Mat3)
    requires IsEmpty(g)
    ensures ApplyAffineToGeometry(g, a) == g
    ensures ApplyHomographyToGeometry(g, m) == Some(g)
  {
    MapGeometryCases(p => ApplyAffine(p, a), g);
    MapGeometryCases(p => Project(m, p), g);
    match g
    case Polygon(p) =>
      assert Coords(g) == [];
    case MultiLineString(ls) =>
      assert Coords(g) == [];
    case MultiPolygon(ps) =>
      assert Coords(g) == [];
    case _ =>
  }

  /**
   * Lines 250-270: the affine map anchored on the top-left corner `tl` and the
   * bottom-right corner `br`: scale the source extent onto the rectangle's, flip y, and
   * translate so the source's west edge meets `tl`'s x and its south edge `br`'s y.
   */
  function AnchoredAffine(src: Bounds, tl: (int, int), br: (int, int)): Affine {
    var wRect := (br.0 - tl.0) as real;
    var hRect := (br.1 - tl.1) as real;
    var srcW := src.xmax - src.xmin;
    var srcH := src.ymax - src.ymin;
    var sx := if srcW > 0.0 then wRect / srcW else 0.0;
    var sy := if srcH > 0.0 then hRect / srcH else 0.0;
    Affine(sx, 0.0, tl.0 as real - src.xmin * sx, 0.0, -sy, br.1 as real + src.ymin * sy)
  }

  /** `dst_rect4[0]` and `dst_rect4[2]`; `None` when rect4 has fewer than three entries (an `IndexError`). */
  function GdfAffine(src: Bounds, rect4: seq<(int, int)>): (r: Option<Affine>)
    ensures r.Some? <==> |rect4| >= 3
  {
    if |rect4| < 3 then None else Some(AnchoredAffine(src, rect4[0], rect4[2]))
  }

  /**
   * Lines 274-280: every geometry mapped, the other columns kept, the CRS dropped; a row
   * without a geometry makes `affine_transform` raise.
   */
  function TransformGdfWithHomography(fr: Frame, src: Bounds, rect4: seq<(int, int)>): (r: Option<Frame>)
    ensures r.Some? <==> |rect4| >= 3 && !HasMissing(fr)
    ensures r.Some? ==> r.value.crs.None? && |r.value.rows| == |fr.rows|
    ensures r.Some? ==> forall i :: 0 <= i < |fr.rows| ==>
      r.value.rows[i].props == fr.rows[i].props
      && r.value.rows[i].geom == TransformCoords(p => ApplyAffine(p, GdfAffine(src, rect4).value), fr.rows[i].geom)
  {
    var a := GdfAffine(src, rect4);
    if a.None? then None
    else
      var mapped := ShapelyMapFrame(fr, p => ApplyAffine(p, a.value));
      if mapped.None? then None else Some(Frame(mapped.value.rows, None))
  }

  lemma DivMul(a: real, b: real)
    requires b != 0.0
    ensures (a / b) * b == a
  {
  }

  /**
   * With a positive source extent, the north-west corner of the source box lands on the
   * top-left anchor and the south-east corner on the bottom-right one.
   */
  lemma AnchoredAffineCorners(src: Bounds, tl: (int, int), br: (int, int))
    requires src.xmax > src.xmin && src.ymax > src.ymin
    ensures ApplyAffine(Pt(src.xmin, src.ymax), AnchoredAffine(src, tl, br)) == Pt(tl.0 as real, tl.1 as real)
    ensures ApplyAffine(Pt(src.xmax, src.ymin), AnchoredAffine(src, tl, br)) == Pt(br.0 as real, br.1 as real)
  {
    var m := AnchoredAffine(src, tl, br);
    var srcW := src.xmax - src.xmin;
    var srcH := src.ymax - src.ymin;
    var sx := (br.0 - tl.0) as real / srcW;
    var sy := (br.1 - tl.1) as real / srcH;
    assert m.a == sx && m.e == -sy;
    DivMul((br.0 - tl.0) as real, srcW);
    DivMul((br.1 - tl.1) as real, srcH);
    assert sx * src.xmax - src.xmin * sx == sx * srcW;
    assert -sy * src.ymax + src.ymin * sy == -(sy * srcH);
    assert ApplyAffine(Pt(src.xmin, src.ymax), m).x == tl.0 as real;
    assert ApplyAffine(Pt(src.xmin, src.ymax), m).y == tl.1 as real;
    assert ApplyAffine(Pt(src.xmax, src.ymin), m).x == br.0 as real;
    assert ApplyAffine(Pt(src.xmax, src.ymin), m).y == br.1 as real;
  }

  /** Lines 250-251: the anchors are `rect4[0]` and `rect4[2]`. */
  lemma GdfAffineAnchors(src: Bounds, rect4: seq<(int, int)>)
    requires |rect4| >= 3 && src.xmax > src.xmin && src.ymax > src.ymin
    ensures ApplyAffine(Pt(src.xmin, src.ymax), GdfAffine(src, rect4).value) == Pt(rect4[0].0 as real, rect4[0].1 as real)
    ensures ApplyAffine(Pt(src.xmax, src.ymin), GdfAffine(src, rect4).value) == Pt(rect4[2].0 as real, rect4[2].1 as real)
  {
    AnchoredAffineCorners(src, rect4[0], rect4[2]);
  }

  /** `rect4[1]` and `rect4[3]` are never read. */
  lemma GdfAffineIgnoresOtherCorners(src: Bounds, r1: seq<(int, int)>, r2: seq<(int, int)>)
    requires |r1| >= 3 && |r2| >= 3 && r1[0] == r2[0] && r1[2] == r2[2]
    ensures GdfAffine(src, r1) == GdfAffine(src, r2)
  {
  }

  /**
   * Lines 261-262 and 270: a source box with no width sends every x to `rect4[0]`'s x,
   * and one with no height sends every y to `rect4[2]`'s y.
   */
  lemma GdfAffineDegenerate(src: Bounds, rect4: seq<(int, int)>, p: Pt)
    requires |rect4| >= 3
    ensures src.xmax - src.xmin <= 0.0 ==> ApplyAffine(p, GdfAffine(src, rect4).value).x == rect4[0].0 as real
    ensures src.ymax - src.ymin <= 0.0 ==> ApplyAffine(p, GdfAffine(src, rect4).value).y == rect4[2].1 as real
  {
  }
}

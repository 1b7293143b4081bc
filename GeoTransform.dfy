/**
 * backend/utils/geo_transform.py: the region-homography helpers. They repeat the corner
 * order, DLT rows and projective division of backend/utils/homography.py; the lemmas here
 * show which of them coincide with those definitions and which pairing of corners the
 * region homography uses.
 */
module GeoTransform {
  import opened Wrappers
  import opened Geometry
  import Homography

  /** Lines 9-17: TL, TR, BR, BL with y pointing down. */
  function RectBoundsToCorners(b: Bounds): (cs: seq<Pt>)
    ensures |cs| == 4
  {
    [Pt(b.xmin, b.ymin), Pt(b.xmax, b.ymin), Pt(b.xmax, b.ymax), Pt(b.xmin, b.ymax)]
  }

  /** The corner list is the pixel-mode corner list of backend/utils/homography.py. */
  lemma CornersArePixelMode(b: Bounds)
    ensures RectBoundsToCorners(b) == Homography.RectBoundsToCorners(b, false)
  {
  }

  /** Lines 22-24. */
  function ARow(s: Pt, t: Pt): seq<seq<real>> {
    [[s.x, s.y, 1.0, 0.0, 0.0, 0.0, -t.x * s.x, -t.x * s.y, -t.x],
     [0.0, 0.0, 0.0, s.x, s.y, 1.0, -t.y * s.x, -t.y * s.y, -t.y]]
  }

  /** Line 26: `np.vstack([A_row(...) for (x, y), (X, Y) in zip(src4, dst4)])`. */
  function StackedRows(src: seq<Pt>, dst: seq<Pt>): (rows: seq<seq<real>>)
    ensures |rows| == 2 * (if |src| < |dst| then |src| else |dst|)
  {
    var n := if |src| < |dst| then |src| else |dst|;
    seq(2 * n, i requires 0 <= i < 2 * n => ARow(src[i / 2], dst[i / 2])[i % 2])
  }

  /** The stacked system is row for row the one built by backend/utils/homography.py. */
  lemma StackedRowsAgree(src: seq<Pt>, dst: seq<Pt>)
    ensures StackedRows(src, dst) == Homography.DltSystem(src, dst)
  {
    var rows := StackedRows(src, dst);
    var other := Homography.DltSystem(src, dst);
    var n := if |src| < |dst| then |src| else |dst|;
    LengthOfSystem(src, dst);
    forall i | 0 <= i < 2 * n
      ensures rows[i] == other[i]
    {
      var k := i / 2;
      assert i == 2 * k || i == 2 * k + 1;
      Homography.DltSystemRows(src, dst, k);
    }
  }

  lemma {:induction false} LengthOfSystem(src: seq<Pt>, dst: seq<Pt>)
    ensures |Homography.DltSystem(src, dst)| == 2 * (if |src| < |dst| then |src| else |dst|)
    decreases |src|
  {
    if |src| > 0 && |dst| > 0 {
      LengthOfSystem(src[1..], dst[1..]);
    }
  }

  /** Lines 33-37; `None` where numpy divides by a zero `w`. */
  function ApplyH(m: Homography.Mat3, p: Pt): (r: Option<Pt>)
    ensures r.None? <==> Homography.Denominator(m, p) == 0.0
  {
    var w := m.h20 * p.x + m.h21 * p.y + m.h22;
    if w == 0.0 then None
    else Some(Pt((m.h00 * p.x + m.h01 * p.y + m.h02) / w, (m.h10 * p.x + m.h11 * p.y + m.h12) / w))
  }

  /** The same projective division as backend/utils/homography.py, so the identity fixes every point. */
  lemma ApplyHAgrees(m: Homography.Mat3, p: Pt)
    ensures ApplyH(m, p) == Homography.ApplyH(m, p)
    ensures ApplyH(Homography.IdentityH, p) == Some(p)
  {
    var w := Homography.Denominator(m, p);
    if w != 0.0 {
      Homography.ApplyHValue(m, p);
      assert ApplyH(m, p).value.x == Homography.ApplyH(m, p).value.x;
      assert ApplyH(m, p).value.y == Homography.ApplyH(m, p).value.y;
    }
    Homography.ApplyHIdentity(p);
    Homography.ApplyHValue(Homography.IdentityH, p);
    assert ApplyH(Homography.IdentityH, p).value.x == p.x;
    assert ApplyH(Homography.IdentityH, p).value.y == p.y;
  }

  /** Lines 68-72: the source corners of the outline's bounds, paired in order with rect4. */
  function RegionCorrespondences(bounds: Bounds, rect4: seq<(int, int)>): (seq<Pt>, seq<Pt>) {
    (RectBoundsToCorners(bounds), seq(|rect4|, i requires 0 <= i < |rect4| => Pt(rect4[i].0 as real, rect4[i].1 as real)))
  }

  /** Lines 53-74: the system handed to the SVD for the region homography. */
  function RegionSystem(bounds: Bounds, rect4: seq<(int, int)>): seq<seq<real>> {
    var (src, dst) := RegionCorrespondences(bounds, rect4);
    StackedRows(src, dst)
  }

  /**
   * The region homography pairs `(xmin, ymin)` with `rect4[0]` and `(xmax, ymax)` with
   * `rect4[2]`: with geographic bounds that is the south-west corner sent to the top-left
   * pixel, the reverse of the pairing of homography.py's geographic corners whenever the
   * bounds have height.
   */
  lemma RegionPairing(bounds: Bounds, rect4: seq<(int, int)>)
    requires |rect4| == 4
    ensures var (src, dst) := RegionCorrespondences(bounds, rect4);
      src[0] == Pt(bounds.xmin, bounds.ymin) && dst[0] == Pt(rect4[0].0 as real, rect4[0].1 as real)
      && src[2] == Pt(bounds.xmax, bounds.ymax) && dst[2] == Pt(rect4[2].0 as real, rect4[2].1 as real)
    ensures bounds.ymin != bounds.ymax ==>
      RegionCorrespondences(bounds, rect4).0[0] != Homography.RectBoundsToCorners(bounds, true)[0]
    ensures RegionSystem(bounds, rect4)[..2] == ARow(Pt(bounds.xmin, bounds.ymin), Pt(rect4[0].0 as real, rect4[0].1 as real))
  {
    var (src, dst) := RegionCorrespondences(bounds, rect4);
    var rows := RegionSystem(bounds, rect4);
    assert rows[0] == ARow(src[0], dst[0])[0];
    assert rows[1] == ARow(src[0], dst[0])[1];
  }

  /**
   * Lines 40-44 as the map of every coordinate through lines 33-37 (the per-coordinate
   * fallback of `shapely.ops.transform`); `None` for a row without a geometry, whose
   * `is_empty` raises, and when a coordinate goes to infinity.
   */
  function TransformGeometryWithHomography(g: Geom, m: Homography.Mat3): (r: Option<Geom>)
    ensures r.Some? <==> !g.Missing? && Homography.FiniteUnder(m, g)
  {
    if !g.Missing? && Homography.FiniteUnder(m, g) then Some(TransformCoords(p => Homography.Project(m, p), g)) else None
  }

  predicate FrameFinite(fr: Frame, m: Homography.Mat3) {
    forall i :: 0 <= i < |fr.rows| ==> Homography.FiniteUnder(m, fr.rows[i].geom)
  }

  /** Lines 77-80: each geometry transformed, the other columns kept, no CRS. */
  function TransformGeodataframeWithHomography(fr: Frame, m: Homography.Mat3): (r: Option<Frame>)
    ensures r.Some? <==> !HasMissing(fr) && FrameFinite(fr, m)
    ensures r.Some? ==> r.value.crs.None? && |r.value.rows| == |fr.rows|
    ensures r.Some? ==> forall i :: 0 <= i < |fr.rows| ==>
      r.value.rows[i].props == fr.rows[i].props
      && Some(r.value.rows[i].geom) == TransformGeometryWithHomography(fr.rows[i].geom, m)
  {
    if !HasMissing(fr) && FrameFinite(fr, m) then Some(Frame(TransformFrame(fr, p => Homography.Project(m, p)).rows, None))
    else None
  }

  /**
   * A transformed geometry keeps its structure, including rings, and every coordinate
   * is the projective image of the original one.
   */
  lemma TransformGeometryShape(g: Geom, m: Homography.Mat3)
    requires !g.Missing? && Homography.FiniteUnder(m, g)
    ensures Shape(TransformGeometryWithHomography(g, m).value) == Shape(g)
    ensures var cs := Coords(TransformGeometryWithHomography(g, m).value);
      |cs| == |Coords(g)| && forall k :: 0 <= k < |cs| ==> Some(cs[k]) == ApplyH(m, Coords(g)[k])
  {
    var f := (p: Pt) => Homography.Project(m, p);
    TransformCoordsShape(f, g);
    forall k | 0 <= k < |Coords(g)| {
      ApplyHAgrees(m, Coords(g)[k]);
    }
  }

  /**
   * Lines 40-44 as written. `shapely.ops.transform` first calls `transform_coords` once
   * with the tuple of all x values and the tuple of all y values; line 35 then asks numpy
   * for an array of two tuples and a float, which numpy 1.24 and later refuse with a
   * `ValueError`. `shapely.ops.transform` retries point by point only after a `TypeError`,
   * so every geometry with a coordinate raises; one without coordinates comes back as it
   * is, and `None` raises on `is_empty`.
   */
  function TransformGeometryAsWritten(g: Geom, m: Homography.Mat3): (r: Option<Geom>)
    ensures r.Some? <==> !g.Missing? && |Coords(g)| == 0
    ensures r.Some? ==> r.value == g
  {
    if !g.Missing? && |Coords(g)| == 0 then Some(g) else None
  }

  /** Lines 77-80 as written: the frame comes back only when no row has a coordinate. */
  function TransformGeodataframeAsWritten(fr: Frame, m: Homography.Mat3): (r: Option<Frame>)
    ensures r.Some? <==> forall i :: 0 <= i < |fr.rows| ==> TransformGeometryAsWritten(fr.rows[i].geom, m).Some?
    ensures r.Some? ==> r.value == Frame(fr.rows, None)
  {
    if forall i :: 0 <= i < |fr.rows| ==> TransformGeometryAsWritten(fr.rows[i].geom, m).Some? then Some(Frame(fr.rows, None))
    else None
  }

  /** The intended map under the identity returns every point as it is. */
  lemma IdentityFixesPoint(p: Pt)
    ensures TransformGeometryWithHomography(Point(p), Homography.IdentityH) == Some(Point(p))
  {
    var m := Homography.IdentityH;
    ApplyHAgrees(m, p);
    assert Homography.Project(m, p) == p;
    assert Coords(Point(p)) == [p];
    assert Homography.FiniteUnder(m, Point(p));
    assert TransformCoords(q => Homography.Project(m, q), Point(p)) == Point(Homography.Project(m, p));
  }

  /**
   * `Point(1, 2)` under the identity: the code as written raises, the intended
   * per-coordinate map returns the point itself, and a one-row frame of it raises too.
   */
  lemma RaggedArrayRaises()
    ensures TransformGeometryAsWritten(Point(Pt(1.0, 2.0)), Homography.IdentityH).None?
    ensures TransformGeometryWithHomography(Point(Pt(1.0, 2.0)), Homography.IdentityH) == Some(Point(Pt(1.0, 2.0)))
    ensures TransformGeodataframeAsWritten(Frame([Feature(map[], Point(Pt(1.0, 2.0)))], None), Homography.IdentityH).None?
  {
    IdentityFixesPoint(Pt(1.0, 2.0));
    PointRaises(Pt(1.0, 2.0), Homography.IdentityH);
  }

  /** As written, every point raises, alone or as a row of a frame. */
  lemma PointRaises(p: Pt, m: Homography.Mat3)
    ensures TransformGeometryAsWritten(Point(p), m).None?
    ensures TransformGeodataframeAsWritten(Frame([Feature(map[], Point(p))], None), m).None?
  {
    assert Coords(Point(p)) == [p];
    var fr := Frame([Feature(map[], Point(p))], None);
    assert !TransformGeometryAsWritten(fr.rows[0].geom, m).Some?;
  }
}

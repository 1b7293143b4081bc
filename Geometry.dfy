/**
 * Shapely geometries as values: points, rings, polygons with holes and their multi-part
 * forms, and the two ways the backend maps a point function over them. `TransformCoords`
 * is the structure-preserving map of `shapely.ops.transform` and of the `shapely.affinity`
 * helpers; `MapGeometry` is the hand-written per-type map shared by
 * backend/utils/homography.py (lines 87-130 and 177-227) and backend/utils/tps.py (lines 123-173).
 */
module Geometry {
  import opened Wrappers

  datatype Pt = Pt(x: real, y: real)

  const Origin: Pt := Pt(0.0, 0.0)

  /** A polygon: its exterior ring and its holes. */
  datatype Poly = Poly(exterior: seq<Pt>, holes: seq<seq<Pt>>)

  /**
   * `Missing` is a row whose geometry is `None`; `LinearRing` stands for the geometry
   * types the hand-written maps send to their coordinate fallback.
   */
  datatype Geom =
    | Missing
    | Point(p: Pt)
    | LineString(coords: seq<Pt>)
    | Polygon(poly: Poly)
    | MultiPoint(points: seq<Pt>)
    | MultiLineString(lines: seq<seq<Pt>>)
    | MultiPolygon(polys: seq<Poly>)
    | LinearRing(coords: seq<Pt>)

  /** `geom is None or geom.is_empty`. */
  predicate IsEmpty(g: Geom) {
    match g
    case Missing => true
    case Point(_) => false
    case LineString(cs) => |cs| == 0
    case Polygon(p) => |p.exterior| == 0 && |p.holes| == 0
    case MultiPoint(ps) => |ps| == 0
    case MultiLineString(ls) => |ls| == 0
    case MultiPolygon(ps) => |ps| == 0
    case LinearRing(cs) => |cs| == 0
  }

  function MapPts(f: Pt -> Pt, ps: seq<Pt>): (qs: seq<Pt>)
    ensures |qs| == |ps|
    ensures forall i :: 0 <= i < |ps| ==> qs[i] == f(ps[i])
  {
    seq(|ps|, i requires 0 <= i < |ps| => f(ps[i]))
  }

  function MapRings(f: Pt -> Pt, rs: seq<seq<Pt>>): (qs: seq<seq<Pt>>)
    ensures |qs| == |rs|
    ensures forall i :: 0 <= i < |rs| ==> qs[i] == MapPts(f, rs[i])
  {
    seq(|rs|, i requires 0 <= i < |rs| => MapPts(f, rs[i]))
  }

  function MapPoly(f: Pt -> Pt, p: Poly): Poly {
    Poly(MapPts(f, p.exterior), MapRings(f, p.holes))
  }

  function MapPolys(f: Pt -> Pt, ps: seq<Poly>): (qs: seq<Poly>)
    ensures |qs| == |ps|
    ensures forall i :: 0 <= i < |ps| ==> qs[i] == MapPoly(f, ps[i])
  {
    seq(|ps|, i requires 0 <= i < |ps| => MapPoly(f, ps[i]))
  }

  /** `shapely.ops.transform(f, geom)` and the affinity maps: same parts, each point mapped. */
  function TransformCoords(f: Pt -> Pt, g: Geom): Geom {
    match g
    case Missing => Missing
    case Point(p) => Point(f(p))
    case LineString(cs) => LineString(MapPts(f, cs))
    case Polygon(p) => Polygon(MapPoly(f, p))
    case MultiPoint(ps) => MultiPoint(MapPts(f, ps))
    case MultiLineString(ls) => MultiLineString(MapRings(f, ls))
    case MultiPolygon(ps) => MultiPolygon(MapPolys(f, ps))
    case LinearRing(cs) => LinearRing(MapPts(f, cs))
  }

  /**
   * The hand-written geometry map: `None` and empty geometries pass through, each known
   * type is rebuilt from its mapped parts, and any other geometry is rebuilt from its
   * mapped coordinates as a point, a line or a polygon according to how many there are.
   */
  function MapGeometry(f: Pt -> Pt, g: Geom): Geom {
    if IsEmpty(g) then g
    else
      match g
      case LinearRing(cs) =>
        var ms := MapPts(f, cs);
        if |ms| == 1 then Point(ms[0])
        else if |ms| == 2 then LineString(ms)
        else Polygon(Poly(ms, []))
      case _ => TransformCoords(f, g)
  }

  function Flatten(rs: seq<seq<Pt>>): seq<Pt> {
    if rs == [] then [] else rs[0] + Flatten(rs[1..])
  }

  function PolyCoords(p: Poly): seq<Pt> {
    p.exterior + Flatten(p.holes)
  }

  function PolysCoords(ps: seq<Poly>): seq<Pt> {
    if ps == [] then [] else PolyCoords(ps[0]) + PolysCoords(ps[1..])
  }

  /** Every coordinate of a geometry, in shapely's order: exteriors before their holes. */
  function Coords(g: Geom): seq<Pt> {
    match g
    case Missing => []
    case Point(p) => [p]
    case LineString(cs) => cs
    case Polygon(p) => PolyCoords(p)
    case MultiPoint(ps) => ps
    case MultiLineString(ls) => Flatten(ls)
    case MultiPolygon(ps) => PolysCoords(ps)
    case LinearRing(cs) => cs
  }

  /** A geometry's structure alone: its type and part sizes, every point replaced by the origin. */
  function ErasePts(ps: seq<Pt>): seq<Pt> {
    seq(|ps|, i requires 0 <= i < |ps| => Origin)
  }

  function EraseRings(rs: seq<seq<Pt>>): seq<seq<Pt>> {
    seq(|rs|, i requires 0 <= i < |rs| => ErasePts(rs[i]))
  }

  function ErasePoly(p: Poly): Poly {
    Poly(ErasePts(p.exterior), EraseRings(p.holes))
  }

  function Shape(g: Geom): Geom {
    match g
    case Missing => Missing
    case Point(_) => Point(Origin)
    case LineString(cs) => LineString(ErasePts(cs))
    case Polygon(p) => Polygon(ErasePoly(p))
    case MultiPoint(ps) => MultiPoint(ErasePts(ps))
    case MultiLineString(ls) => MultiLineString(EraseRings(ls))
    case MultiPolygon(ps) => MultiPolygon(seq(|ps|, i requires 0 <= i < |ps| => ErasePoly(ps[i])))
    case LinearRing(cs) => LinearRing(ErasePts(cs))
  }

  lemma MapPtsAppend(f: Pt -> Pt, a: seq<Pt>, b: seq<Pt>)
    ensures MapPts(f, a + b) == MapPts(f, a) + MapPts(f, b)
  {
  }

  lemma {:induction false} FlattenMap(f: Pt -> Pt, rs: seq<seq<Pt>>)
    ensures Flatten(MapRings(f, rs)) == MapPts(f, Flatten(rs))
  {
    if rs != [] {
      FlattenMap(f, rs[1..]);
      assert MapRings(f, rs)[1..] == MapRings(f, rs[1..]);
      MapPtsAppend(f, rs[0], Flatten(rs[1..]));
    }
  }

  lemma PolyCoordsMap(f: Pt -> Pt, p: Poly)
    ensures PolyCoords(MapPoly(f, p)) == MapPts(f, PolyCoords(p))
  {
    FlattenMap(f, p.holes);
    MapPtsAppend(f, p.exterior, Flatten(p.holes));
  }

  lemma {:induction false} PolysCoordsMap(f: Pt -> Pt, ps: seq<Poly>)
    ensures PolysCoords(MapPolys(f, ps)) == MapPts(f, PolysCoords(ps))
  {
    if ps != [] {
      PolysCoordsMap(f, ps[1..]);
      assert MapPolys(f, ps)[1..] == MapPolys(f, ps[1..]);
      PolyCoordsMap(f, ps[0]);
      MapPtsAppend(f, PolyCoords(ps[0]), PolysCoords(ps[1..]));
    }
  }

  lemma ErasePolyMap(f: Pt -> Pt, p: Poly)
    ensures ErasePoly(MapPoly(f, p)) == ErasePoly(p)
  {
  }

  /**
   * A coordinate map keeps the geometry's type, its number of parts, holes and points
   * in every ring, and sends the k-th coordinate to `f` of the k-th coordinate.
   */
  lemma TransformCoordsShape(f: Pt -> Pt, g: Geom)
    ensures Shape(TransformCoords(f, g)) == Shape(g)
    ensures Coords(TransformCoords(f, g)) == MapPts(f, Coords(g))
  {
    match g
    case Polygon(p) => PolyCoordsMap(f, p);
    case MultiLineString(ls) => FlattenMap(f, ls);
    case MultiPolygon(ps) =>
      PolysCoordsMap(f, ps);
      forall i | 0 <= i < |ps| {
        ErasePolyMap(f, ps[i]);
      }
    case _ =>
  }

  lemma MapPtsIdentity(f: Pt -> Pt, ps: seq<Pt>)
    requires forall p :: f(p) == p
    ensures MapPts(f, ps) == ps
  {
  }

  lemma MapPolyIdentity(f: Pt -> Pt, p: Poly)
    requires forall q :: f(q) == q
    ensures MapPoly(f, p) == p
  {
    MapPtsIdentity(f, p.exterior);
    forall i | 0 <= i < |p.holes| {
      MapPtsIdentity(f, p.holes[i]);
    }
  }

  /** Mapping the identity changes nothing. */
  lemma TransformCoordsIdentity(f: Pt -> Pt, g: Geom)
    requires forall p :: f(p) == p
    ensures TransformCoords(f, g) == g
  {
    match g
    case Polygon(p) => MapPolyIdentity(f, p);
    case MultiLineString(ls) =>
      forall i | 0 <= i < |ls| {
        MapPtsIdentity(f, ls[i]);
      }
    case MultiPolygon(ps) =>
      forall i | 0 <= i < |ps| {
        MapPolyIdentity(f, ps[i]);
      }
    case _ =>
  }

  lemma MapPtsCompose(f: Pt -> Pt, h: Pt -> Pt, k: Pt -> Pt, ps: seq<Pt>)
    requires forall p :: k(p) == f(h(p))
    ensures MapPts(f, MapPts(h, ps)) == MapPts(k, ps)
  {
  }

  lemma MapPolyCompose(f: Pt -> Pt, h: Pt -> Pt, k: Pt -> Pt, p: Poly)
    requires forall q :: k(q) == f(h(q))
    ensures MapPoly(f, MapPoly(h, p)) == MapPoly(k, p)
  {
    MapPtsCompose(f, h, k, p.exterior);
    forall i | 0 <= i < |p.holes| {
      MapPtsCompose(f, h, k, p.holes[i]);
    }
  }

  /** Mapping `h` and then `f` is mapping their composition. */
  lemma TransformCoordsCompose(f: Pt -> Pt, h: Pt -> Pt, g: Geom)
    ensures TransformCoords(f, TransformCoords(h, g)) == TransformCoords(p => f(h(p)), g)
  {
    var k := (p: Pt) => f(h(p));
    match g
    case Polygon(p) => MapPolyCompose(f, h, k, p);
    case MultiLineString(ls) =>
      forall i | 0 <= i < |ls| {
        MapPtsCompose(f, h, k, ls[i]);
      }
    case MultiPolygon(ps) =>
      forall i | 0 <= i < |ps| {
        MapPolyCompose(f, h, k, ps[i]);
      }
    case _ =>
  }

  /**
   * The hand-written map agrees with the coordinate map on every geometry type it names,
   * passes `None` and empty geometries through unchanged, and rebuilds any other geometry
   * from its mapped coordinates by their number.
   */
  lemma MapGeometryCases(f: Pt -> Pt, g: Geom)
    ensures IsEmpty(g) ==> MapGeometry(f, g) == g
    ensures !g.LinearRing? ==> MapGeometry(f, g) == TransformCoords(f, g)
    ensures g.LinearRing? && |g.coords| == 1 ==> MapGeometry(f, g) == Point(f(g.coords[0]))
    ensures g.LinearRing? && |g.coords| == 2 ==> MapGeometry(f, g) == LineString(MapPts(f, g.coords))
    ensures g.LinearRing? && |g.coords| > 2 ==> MapGeometry(f, g) == Polygon(Poly(MapPts(f, g.coords), []))
  {
    if IsEmpty(g) {
      match g
      case Polygon(p) =>
        assert MapPoly(f, p) == p;
      case MultiLineString(ls) =>
        assert MapRings(f, ls) == ls;
      case MultiPolygon(ps) =>
        assert MapPolys(f, ps) == ps;
      case _ =>
    }
  }

  /** One row of a GeoDataFrame: its attribute columns and its geometry. */
  datatype Feature = Feature(props: map<string, string>, geom: Geom)

  /** A GeoDataFrame: its rows and its coordinate reference system, if any. */
  datatype Frame = Frame(rows: seq<Feature>, crs: Option<string>)

  /** `gdf.copy()` with every geometry passed through `TransformCoords(f, _)`. */
  function TransformFrame(fr: Frame, f: Pt -> Pt): (out: Frame)
    ensures |out.rows| == |fr.rows| && out.crs == fr.crs
    ensures forall i :: 0 <= i < |fr.rows| ==>
      out.rows[i].props == fr.rows[i].props && out.rows[i].geom == TransformCoords(f, fr.rows[i].geom)
  {
    Frame(seq(|fr.rows| , i requires 0 <= i < |fr.rows| =>
      Feature(fr.rows[i].props, TransformCoords(f, fr.rows[i].geom))), fr.crs)
  }

  /** Some row's geometry is `None`. */
  predicate HasMissing(fr: Frame) {
    exists i :: 0 <= i < |fr.rows| && fr.rows[i].geom.Missing?
  }

  /**
   * `gdf.geometry.apply(f)` for a shapely map `f` (`scale`, `translate`, `rotate`,
   * `affine_transform`, `shapely.ops.transform`): each of them reads `geom.is_empty` first,
   * so a `None` row raises AttributeError; otherwise every geometry is mapped.
   */
  function ShapelyMapFrame(fr: Frame, f: Pt -> Pt): (r: Option<Frame>)
    ensures r.None? <==> HasMissing(fr)
    ensures r.Some? ==> |r.value.rows| == |fr.rows| && r.value.crs == fr.crs
    ensures r.Some? ==> forall i :: 0 <= i < |fr.rows| ==>
      r.value.rows[i].props == fr.rows[i].props && r.value.rows[i].geom == TransformCoords(f, fr.rows[i].geom)
  {
    if HasMissing(fr) then None else Some(TransformFrame(fr, f))
  }

  /** `gdf.geometry.total_bounds.tolist()` is a parameter wherever a frame's bounds are read. */
  datatype Bounds = Bounds(xmin: real, ymin: real, xmax: real, ymax: real)
}

/**
 * Where the backend finds each region's county shapes (backend/data_processing.py:24-34),
 * and how an Alaska or Hawaii selection becomes the pixel box that region is fitted to
 * (backend/data_processing.py:444-449, 464, 478-483, 503).
 */
module RegionFiles {
  import opened Numeric
  import opened Text

  /** `os.path.join(a, b)`: an absolute `b` replaces `a`; a separator is added when needed. */
  function PathJoin(a: string, b: string): (p: string)
    ensures |b| > 0 && b[0] == '/' ==> p == b
    ensures (|b| == 0 || b[0] != '/') && |a| > 0 && a[|a| - 1] != '/' ==> p == a + "/" + b
  {
    if |b| > 0 && b[0] == '/' then b
    else if |a| == 0 || a[|a| - 1] == '/' then a + b
    else a + "/" + b
  }

  const ShapefileStem: string := "cb_2024_us_county_500k_"

  /** `f"cb_2024_us_county_500k_{region}_epsg{projection}"`. */
  function RegionLayerName(region: string, projection: string): string {
    ShapefileStem + region + "_epsg" + projection
  }

  /** `_get_region_shapefile_path(region, projection)` under the repository root `base`. */
  function RegionShapefilePath(base: string, region: string, projection: string): string {
    var name := RegionLayerName(region, projection);
    PathJoin(PathJoin(base, name), name + ".shp")
  }

  /** `_get_region_outline_path(region, projection)` under the repository root `base`. */
  function RegionOutlinePath(base: string, region: string, projection: string): string {
    var name := RegionLayerName(region, projection);
    PathJoin(PathJoin(base, name + "_OUTLINE"), region + "_outline.shp")
  }

  /** An EPSG code as the layer names spell it: four decimal digits, such as "4326" or "5070". */
  predicate IsEpsgCode(p: string) {
    |p| == 4 && forall k :: 0 <= k < |p| ==> IsDecimalDigit(p[k])
  }

  /** A region's layer name determines the region and a four-character projection code. */
  lemma LayerNameInjective(r1: string, p1: string, r2: string, p2: string)
    requires |p1| == 4 && |p2| == 4
    requires RegionLayerName(r1, p1) == RegionLayerName(r2, p2)
    ensures r1 == r2 && p1 == p2
  {
    var n := RegionLayerName(r1, p1);
    assert |r1| == |r2|;
    assert n[|ShapefileStem|..|ShapefileStem| + |r1|] == r1;
    assert RegionLayerName(r2, p2)[|ShapefileStem|..|ShapefileStem| + |r2|] == r2;
    assert n[|n| - 4..] == p1;
    assert RegionLayerName(r2, p2)[|RegionLayerName(r2, p2)| - 4..] == p2;
  }

  /** Layout of a shapefile path under a plain (non-root, no trailing slash) base directory. */
  lemma ShapefilePathLayout(base: string, region: string, projection: string)
    requires |base| > 0 && base[|base| - 1] != '/' && IsEpsgCode(projection)
    ensures var name := RegionLayerName(region, projection);
      RegionShapefilePath(base, region, projection) == base + "/" + name + "/" + name + ".shp"
  {
    var name := RegionLayerName(region, projection);
    assert name[0] == 'c';
    var dir := PathJoin(base, name);
    assert dir == base + "/" + name;
    assert name[|name| - 1] == projection[3];
    assert dir[|dir| - 1] == name[|name| - 1];
    assert (name + ".shp")[0] == 'c';
  }

  /**
   * Different regions, or different projections, never share a shapefile path, so writing
   * one region's layer cannot overwrite another's.
   */
  lemma ShapefilePathsDistinct(base: string, r1: string, p1: string, r2: string, p2: string)
    requires |base| > 0 && base[|base| - 1] != '/'
    requires IsEpsgCode(p1) && IsEpsgCode(p2)
    requires RegionShapefilePath(base, r1, p1) == RegionShapefilePath(base, r2, p2)
    ensures r1 == r2 && p1 == p2
  {
    ShapefilePathLayout(base, r1, p1);
    ShapefilePathLayout(base, r2, p2);
    NestedNameInjective(base, RegionLayerName(r1, p1), RegionLayerName(r2, p2));
    LayerNameInjective(r1, p1, r2, p2);
  }

  /** Two layer names of one length nested the same way under one base are the same name. */
  lemma NestedNameInjective(base: string, n1: string, n2: string)
    requires |n1| == |n2|
    requires base + "/" + n1 + "/" + n1 + ".shp" == base + "/" + n2 + "/" + n2 + ".shp"
    ensures n1 == n2
  {
    var s1 := base + "/" + n1 + "/" + n1 + ".shp";
    var s2 := base + "/" + n2 + "/" + n2 + ".shp";
    assert s1[|base| + 1..|base| + 1 + |n1|] == n1;
    assert s2[|base| + 1..|base| + 1 + |n2|] == n2;
  }

  /** An inset selection as the frontend sends it, in image pixels. */
  datatype Selection = Selection(x: real, y: real, width: real, height: real)

  datatype PixelBox = PixelBox(x0: int, y0: int, x1: int, y1: int)

  /** Lines 444-449: `(int(x), int(y), int(x + width), int(y + height))`. */
  function SelectionBox(sel: Selection): (b: PixelBox)
    ensures sel.width >= 0.0 ==> b.x0 <= b.x1
    ensures sel.height >= 0.0 ==> b.y0 <= b.y1
  {
    PixelBox(Trunc(sel.x), Trunc(sel.y), Trunc(sel.x + sel.width), Trunc(sel.y + sel.height))
  }

  /** Lines 464 and 503: edge refinement runs only for a box more than 50 pixels each way. */
  predicate RefineRuns(b: PixelBox) {
    b.x1 - b.x0 > 50 && b.y1 - b.y0 > 50
  }

  /** Truncation moves a value by less than one, so two truncations differ by less than two more. */
  lemma TruncGap(a: real, w: real)
    ensures w - 2.0 < (Trunc(a + w) - Trunc(a)) as real < w + 2.0
  {
  }

  /**
   * The refinement gate in terms of the selection: it always runs for a selection at least
   * 52 pixels each way and never for one under 49 pixels in either direction.
   */
  lemma RefineGate(sel: Selection)
    ensures sel.width >= 52.0 && sel.height >= 52.0 ==> RefineRuns(SelectionBox(sel))
    ensures sel.width < 49.0 || sel.height < 49.0 ==> !RefineRuns(SelectionBox(sel))
  {
    TruncGap(sel.x, sel.width);
    TruncGap(sel.y, sel.height);
  }
}

/**
 * `create_separate_region_shapefiles.py`: split the national county layer into the
 * contiguous US, Alaska and Hawaii by GEOID state prefix, and write each non-empty region
 * in two projections under the file names the backend reads.
 */
module RegionPartition {
  import opened Text
  import opened ConusFilter
  import RegionFiles

  datatype Region = Conus | Alaska | Hawaii

  /** The region names, in the order of the script's `regions` dictionary. */
  const Regions: seq<Region> := [Conus, Alaska, Hawaii]

  /** The keys of the script's `projections` dictionary. */
  const Projections: seq<string> := ["4326", "5070"]

  function RegionName(r: Region): string {
    match r
    case Conus => "conus"
    case Alaska => "alaska"
    case Hawaii => "hawaii"
  }

  /** Lines 31-33: the selection each region's row mask makes. */
  predicate InRegion(g: string, r: Region) {
    match r
    case Conus => IsConus(g)
    case Alaska => StartsWith(g, "02")
    case Hawaii => StartsWith(g, "15")
  }

  /** A territory county: American Samoa, Guam, Northern Mariana Islands, Puerto Rico, Virgin Islands. */
  predicate IsTerritory(g: string) {
    StartsWithAny(g, TerritoryStates)
  }

  function RegionRows(geoids: seq<string>, r: Region): seq<string> {
    Keep(geoids, (g: string) => InRegion(g, r))
  }

  function Count(b: bool): nat { if b then 1 else 0 }

  lemma TwoCodes(g: string, a: string, b: string)
    requires |a| == 2 && |b| == 2 && a != b
    ensures !(StartsWith(g, a) && StartsWith(g, b))
  {
  }

  /**
   * Every county falls in exactly one of the contiguous US, Alaska, Hawaii and the
   * territories: the three regions are pairwise disjoint and the territories are in none.
   */
  lemma ExactlyOneRegion(g: string)
    ensures Count(InRegion(g, Conus)) + Count(InRegion(g, Alaska)) + Count(InRegion(g, Hawaii))
      + Count(IsTerritory(g)) == 1
  {
    var territories := TerritoryStates;
    assert NonConusStates == ["02", "15"] + territories;
    TwoCodes(g, "02", "15");
    if StartsWith(g, "02") {
      assert StartsWith(g, NonConusStates[0]);
      forall i | 0 <= i < |territories| ensures !StartsWith(g, territories[i]) {
        TwoCodes(g, "02", territories[i]);
      }
    } else if StartsWith(g, "15") {
      assert StartsWith(g, NonConusStates[1]);
      forall i | 0 <= i < |territories| ensures !StartsWith(g, territories[i]) {
        TwoCodes(g, "15", territories[i]);
      }
    } else if IsTerritory(g) {
      var i :| 0 <= i < |territories| && StartsWith(g, territories[i]);
      assert StartsWith(g, NonConusStates[i + 2]);
    } else {
      forall i | 0 <= i < |NonConusStates| ensures !StartsWith(g, NonConusStates[i]) {
        if i >= 2 {
          assert NonConusStates[i] == territories[i - 2];
        }
      }
    }
  }

  /** The regions and the territory rows together account for every input row. */
  lemma {:induction false} PartitionCount(geoids: seq<string>)
    ensures |RegionRows(geoids, Conus)| + |RegionRows(geoids, Alaska)| + |RegionRows(geoids, Hawaii)|
      + |Keep(geoids, IsTerritory)| == |geoids|
  {
    if geoids != [] {
      PartitionCount(geoids[1..]);
      ExactlyOneRegion(geoids[0]);
    }
  }

  /** The selected rows are exactly the input rows of that region, in input order. */
  lemma RegionRowsMeaning(geoids: seq<string>, r: Region)
    ensures IsSubsequence(RegionRows(geoids, r), geoids)
    ensures forall g :: g in RegionRows(geoids, r) <==> g in geoids && InRegion(g, r)
  {
    KeepIsSubsequence(geoids, (g: string) => InRegion(g, r));
  }

  /** Alaska is the prefix "02", Hawaii the prefix "15", and the contiguous US excludes both. */
  lemma RegionExamples()
    ensures InRegion("02013", Alaska) && !InRegion("02013", Conus)
    ensures InRegion("15001", Hawaii) && !InRegion("15001", Conus)
    ensures InRegion("06037", Conus)
    ensures IsTerritory("72001") && !InRegion("72001", Conus)
  {
    assert "02013"[..2] == "02";
    assert "15001"[..2] == "15";
    assert "72001"[..2] == "72" == TerritoryStates[3];
    assert StartsWith("72001", TerritoryStates[3]);
    ExactlyOneRegion("02013");
    ExactlyOneRegion("15001");
    ExactlyOneRegion("72001");
    assert "06037"[..2] == "06";
    IsConusByStateCode("06037");
  }

  /**
   * Lines 72 and 79: `BASE_DIR / name / f"{name}.shp"` for the layer name of a region and
   * projection. `Path`'s `/` puts one separator between a normalised directory and a
   * relative name.
   */
  function OutputFile(base: string, r: Region, projection: string): string {
    var name := "cb_2024_us_county_500k_" + RegionName(r) + "_epsg" + projection;
    base + "/" + name + "/" + name + ".shp"
  }

  /** The script's `regions` dictionary, reduced to what the writing loop looks at: each region's county count. */
  function RegionSizes(geoids: seq<string>): seq<(Region, nat)> {
    [(Conus, |RegionRows(geoids, Conus)|), (Alaska, |RegionRows(geoids, Alaska)|), (Hawaii, |RegionRows(geoids, Hawaii)|)]
  }

  /** The layers the script writes for one region, as (region, projection): none when the region has no counties. */
  function RegionLayers(r: Region, size: nat): seq<(Region, string)> {
    if size == 0 then [] else [(r, Projections[0]), (r, Projections[1])]
  }

  function LayersFor(rs: seq<(Region, nat)>): seq<(Region, string)> {
    if rs == [] then []
    else LayersFor(rs[..|rs| - 1]) + RegionLayers(rs[|rs| - 1].0, rs[|rs| - 1].1)
  }

  /** The path of every layer, in order. */
  function Paths(base: string, layers: seq<(Region, string)>): (ps: seq<string>)
    ensures |ps| == |layers| && forall k :: 0 <= k < |layers| ==> ps[k] == OutputFile(base, layers[k].0, layers[k].1)
  {
    if layers == [] then []
    else
      var init := layers[..|layers| - 1];
      var last := layers[|layers| - 1];
      assert forall k :: 0 <= k < |init| ==> init[k] == layers[k];
      Paths(base, init) + [OutputFile(base, last.0, last.1)]
  }

  lemma LayersForStep(rs: seq<(Region, nat)>, i: nat)
    requires i < |rs|
    ensures LayersFor(rs[..i + 1]) == LayersFor(rs[..i]) + RegionLayers(rs[i].0, rs[i].1)
  {
    assert rs[..i + 1][..i] == rs[..i];
  }

  /** The projection loop for one region. */
  method WriteProjections(base: string, region: Region) returns (written: seq<string>)
    ensures written == Paths(base, RegionLayers(region, 1))
  {
    written := [];
    for j := 0 to |Projections|
      invariant written == Paths(base, RegionLayers(region, 1)[..j])
    {
      assert RegionLayers(region, 1)[..j + 1][..j] == RegionLayers(region, 1)[..j];
      written := written + [OutputFile(base, region, Projections[j])];
    }
    assert RegionLayers(region, 1)[..2] == RegionLayers(region, 1);
  }

  lemma PathsAppend(base: string, a: seq<(Region, string)>, b: seq<(Region, string)>)
    ensures Paths(base, a + b) == Paths(base, a) + Paths(base, b)
  {
  }

  /** Lines 61-83: the region and projection loops, returning the shapefiles written, in order. */
  method WriteRegionShapefiles(base: string, geoids: seq<string>) returns (written: seq<string>)
    ensures written == Paths(base, LayersFor(RegionSizes(geoids)))
  {
    var regions := RegionSizes(geoids);
    written := [];
    for i := 0 to |regions|
      invariant written == Paths(base, LayersFor(regions[..i]))
    {
      var (region, size) := regions[i];
      LayersForStep(regions, i);
      PathsAppend(base, LayersFor(regions[..i]), RegionLayers(region, size));
      if size == 0 {
        continue;
      }
      var files := WriteProjections(base, region);
      written := written + files;
    }
    assert regions[..|regions|] == regions;
  }

  /** The script writes each region to the very path the backend later reads it from. */
  lemma OutputMatchesBackend(base: string, r: Region, projection: string)
    requires |base| > 0 && base[|base| - 1] != '/' && RegionFiles.IsEpsgCode(projection)
    ensures OutputFile(base, r, projection) == RegionFiles.RegionShapefilePath(base, RegionName(r), projection)
  {
    RegionFiles.ShapefilePathLayout(base, RegionName(r), projection);
  }

  lemma RegionNameInjective(r1: Region, r2: Region)
    requires RegionName(r1) == RegionName(r2)
    ensures r1 == r2
  {
    assert RegionName(r1)[0] == RegionName(r2)[0];
  }

  /** Two output files coincide only for the same region and projection. */
  lemma OutputFileInjective(base: string, r1: Region, p1: string, r2: Region, p2: string)
    requires |base| > 0 && base[|base| - 1] != '/'
    requires RegionFiles.IsEpsgCode(p1) && RegionFiles.IsEpsgCode(p2)
    requires OutputFile(base, r1, p1) == OutputFile(base, r2, p2)
    ensures r1 == r2 && p1 == p2
  {
    OutputMatchesBackend(base, r1, p1);
    OutputMatchesBackend(base, r2, p2);
    RegionFiles.ShapefilePathsDistinct(base, RegionName(r1), p1, RegionName(r2), p2);
    RegionNameInjective(r1, r2);
  }

  lemma ProjectionsAreCodes(p: string)
    requires p in Projections
    ensures RegionFiles.IsEpsgCode(p)
  {
  }

  /** The written layers, listed region by region. */
  lemma LayersOfThree(a: (Region, nat), b: (Region, nat), c: (Region, nat))
    ensures LayersFor([a, b, c]) == RegionLayers(a.0, a.1) + RegionLayers(b.0, b.1) + RegionLayers(c.0, c.1)
  {
    var rs := [a, b, c];
    LayersForStep(rs, 0);
    LayersForStep(rs, 1);
    LayersForStep(rs, 2);
    assert rs[..0] == [];
    assert rs[..3] == rs;
  }

  /** A region's layer in a given projection is written exactly when the region has a county. */
  lemma LayerWrittenIff(geoids: seq<string>, r: Region, projection: string)
    requires projection in Projections
    ensures (r, projection) in LayersFor(RegionSizes(geoids)) <==> |RegionRows(geoids, r)| > 0
  {
    var sizes := RegionSizes(geoids);
    LayersOfThree(sizes[0], sizes[1], sizes[2]);
    assert sizes == [sizes[0], sizes[1], sizes[2]];
  }

  /** A written path belongs to exactly one layer: another layer's path never coincides with it. */
  lemma PathOfLayer(base: string, layers: seq<(Region, string)>, r: Region, projection: string)
    requires |base| > 0 && base[|base| - 1] != '/' && projection in Projections
    requires forall l :: l in layers ==> l.1 in Projections
    ensures OutputFile(base, r, projection) in Paths(base, layers) <==> (r, projection) in layers
  {
    var ps := Paths(base, layers);
    ProjectionsAreCodes(projection);
    if OutputFile(base, r, projection) in ps {
      var k :| 0 <= k < |ps| && ps[k] == OutputFile(base, r, projection);
      assert layers[k] in layers;
      ProjectionsAreCodes(layers[k].1);
      OutputFileInjective(base, r, projection, layers[k].0, layers[k].1);
    }
    if (r, projection) in layers {
      var k :| 0 <= k < |layers| && layers[k] == (r, projection);
      assert ps[k] == OutputFile(base, r, projection);
    }
  }

  /** A region's shapefile in a given projection is written exactly when the region has a county. */
  lemma WrittenIff(base: string, geoids: seq<string>, r: Region, projection: string)
    requires |base| > 0 && base[|base| - 1] != '/' && projection in Projections
    ensures OutputFile(base, r, projection) in Paths(base, LayersFor(RegionSizes(geoids)))
      <==> |RegionRows(geoids, r)| > 0
  {
    var layers := LayersFor(RegionSizes(geoids));
    forall l | l in layers ensures l.1 in Projections {
      LayersInProjections(RegionSizes(geoids), l);
    }
    PathOfLayer(base, layers, r, projection);
    LayerWrittenIff(geoids, r, projection);
  }

  lemma {:induction false} LayersInProjections(rs: seq<(Region, nat)>, l: (Region, string))
    requires l in LayersFor(rs)
    ensures l.1 in Projections
    decreases |rs|
  {
    if l !in LayersFor(rs[..|rs| - 1]) {
      assert l in RegionLayers(rs[|rs| - 1].0, rs[|rs| - 1].1);
    } else {
      LayersInProjections(rs[..|rs| - 1], l);
    }
  }
}

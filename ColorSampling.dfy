/**
 * The per-county colour sampling loop of `process_uploaded_image`
 * (backend/data_processing.py:565-612): for each county, the pixels its rasterised shape
 * covers, without near-black and near-white pixels unless nothing else is left, averaged
 * channel by channel.
 */
module ColorSampling {
  import opened Wrappers
  import opened Colors
  import opened Numeric
  import opened Sorting

  /**
   * What rasterising one county yields: no geometry (None or empty), a rasterisation
   * exception, or the colours of the pixels the mask covers, in row-major order.
   */
  datatype RegionMask = NoGeometry | RasterizeFailed | Mask(pixels: seq<Rgb>)

  datatype Region = Region(geoid: string, mask: RegionMask)

  /** One entry of `results`: the GEOID and the sampled `rgb`, `None` for `[None, None, None]`. */
  datatype Sample = Sample(geoid: string, rgb: Option<Rgb>)

  /** A pixel counts as background when all its channels are <= 5 or all are >= 250. */
  predicate IsBackground(c: Rgb) {
    (c.r <= 5 && c.g <= 5 && c.b <= 5) || (c.r >= 250 && c.g >= 250 && c.b >= 250)
  }

  /** `pixels[mask_valid]`: the pixels that are not background, in order. */
  function Foreground(ps: seq<Rgb>): (fs: seq<Rgb>)
    ensures |fs| <= |ps|
    ensures forall c :: c in fs <==> c in ps && !IsBackground(c)
  {
    if ps == [] then []
    else
      var rest := Foreground(ps[1..]);
      assert forall c :: c in ps <==> c == ps[0] || c in ps[1..];
      (if IsBackground(ps[0]) then [] else [ps[0]]) + rest
  }

  /** The pixels that are averaged: the foreground if there is any, all of them otherwise. */
  function KeptPixels(ps: seq<Rgb>): (ks: seq<Rgb>)
    ensures |ks| == 0 <==> |ps| == 0
    ensures forall c :: c in ks ==> c in ps
  {
    var fs := Foreground(ps);
    if fs != [] then fs else ps
  }

  function ChannelSum(ps: seq<Rgb>, ch: nat): int
    requires ch < 3
  {
    if ps == [] then 0 else Channel(ps[0], ch) + ChannelSum(ps[1..], ch)
  }

  /** `int(pixels.mean(axis=0)[ch])`. */
  function MeanChannel(ps: seq<Rgb>, ch: nat): int
    requires |ps| > 0 && ch < 3
  {
    Trunc(ChannelSum(ps, ch) as real / |ps| as real)
  }

  /** The sampled colour of one county, `None` where the loop records `[None, None, None]`. */
  function SampleColour(m: RegionMask): (s: Option<Rgb>)
    ensures s.None? <==> (m.NoGeometry? || m.RasterizeFailed? || |m.pixels| == 0)
  {
    if m.NoGeometry? || m.RasterizeFailed? || |m.pixels| == 0 then None
    else
      var ks := KeptPixels(m.pixels);
      if |ks| == 0 then None
      else Some(Rgb(MeanChannel(ks, 0), MeanChannel(ks, 1), MeanChannel(ks, 2)))
  }

  /** The colour `avg_rgbs` records for a county: the sample, or `[0, 0, 0]`. */
  function AverageEntry(s: Option<Rgb>): Rgb {
    if s.Some? then s.value else Rgb(0, 0, 0)
  }

  /** The sampling loop: one entry of `results` and one of `avg_rgbs` per county, in order. */
  method SampleRegions(regions: seq<Region>) returns (results: seq<Sample>, avgRgbs: seq<Rgb>)
    ensures |results| == |regions| && |avgRgbs| == |regions|
    ensures forall k :: 0 <= k < |regions| ==>
      results[k] == Sample(regions[k].geoid, SampleColour(regions[k].mask))
    ensures forall k :: 0 <= k < |regions| ==> avgRgbs[k] == AverageEntry(results[k].rgb)
  {
    results, avgRgbs := [], [];
    for i := 0 to |regions|
      invariant |results| == i && |avgRgbs| == i
      invariant forall k :: 0 <= k < i ==> results[k] == Sample(regions[k].geoid, SampleColour(regions[k].mask))
      invariant forall k :: 0 <= k < i ==> avgRgbs[k] == AverageEntry(results[k].rgb)
    {
      var r := regions[i];
      var colour := SampleColour(r.mask);
      results := results + [Sample(r.geoid, colour)];
      avgRgbs := avgRgbs + [AverageEntry(colour)];
    }
  }

  // ---------------------------------------------------------------------
  // Properties

  /** With some foreground pixel, only foreground pixels are averaged. */
  lemma ForegroundOnlyWhenPresent(ps: seq<Rgb>)
    requires exists k :: 0 <= k < |ps| && !IsBackground(ps[k])
    ensures KeptPixels(ps) == Foreground(ps)
    ensures forall c :: c in KeptPixels(ps) ==> !IsBackground(c)
  {
    var k :| 0 <= k < |ps| && !IsBackground(ps[k]);
    assert ps[k] in Foreground(ps);
  }

  lemma {:induction false} SumBounds(ps: seq<Rgb>, ch: nat, lo: int, hi: int)
    requires ch < 3
    requires forall k :: 0 <= k < |ps| ==> lo <= Channel(ps[k], ch) <= hi
    ensures |ps| * lo <= ChannelSum(ps, ch) <= |ps| * hi
  {
    if ps != [] {
      SumBounds(ps[1..], ch, lo, hi);
      assert |ps| * lo == lo + (|ps| - 1) * lo;
      assert |ps| * hi == hi + (|ps| - 1) * hi;
    }
  }

  lemma QuotientBounds(s: int, n: nat, lo: int, hi: int)
    requires n > 0 && n * lo <= s <= n * hi
    ensures lo as real <= s as real / n as real <= hi as real
  {
    assert (n * lo) as real == n as real * lo as real;
    assert (n * hi) as real == n as real * hi as real;
  }

  /** Each channel of the mean lies between that channel's minimum and maximum. */
  lemma MeanBetween(ps: seq<Rgb>, ch: nat)
    requires |ps| > 0 && ch < 3
    ensures MinOf(Column(ps, ch)) <= MeanChannel(ps, ch) <= MaxOf(Column(ps, ch))
  {
    var col := Column(ps, ch);
    var lo, hi := MinOf(col), MaxOf(col);
    SumBounds(ps, ch, lo, hi);
    QuotientBounds(ChannelSum(ps, ch), |ps|, lo, hi);
    TruncBetween(ChannelSum(ps, ch) as real / |ps| as real, lo, hi);
  }

  /** A sampled colour is the mean of the kept pixels, so each channel lies within their range. */
  lemma SampleWithinKept(m: RegionMask, ch: nat)
    requires SampleColour(m).Some? && ch < 3
    ensures m.Mask? && |KeptPixels(m.pixels)| > 0
    ensures MinOf(Column(KeptPixels(m.pixels), ch)) <= Channel(SampleColour(m).value, ch)
      <= MaxOf(Column(KeptPixels(m.pixels), ch))
  {
    MeanBetween(KeptPixels(m.pixels), ch);
  }

  lemma ColumnOfBytes(ps: seq<Rgb>, ch: nat)
    requires |ps| > 0 && ch < 3
    requires forall c :: c in ps ==> IsByteColor(c)
    ensures 0 <= MinOf(Column(ps, ch)) && MaxOf(Column(ps, ch)) < 256
  {
    var col := Column(ps, ch);
    var i :| 0 <= i < |col| && col[i] == MinOf(col);
    var j :| 0 <= j < |col| && col[j] == MaxOf(col);
    assert ps[i] in ps && ps[j] in ps;
  }

  /** A mask of byte pixels samples a byte colour. */
  lemma SampleIsByteColour(m: RegionMask)
    requires m.Mask? && forall k :: 0 <= k < |m.pixels| ==> IsByteColor(m.pixels[k])
    ensures SampleColour(m).Some? ==> IsByteColor(SampleColour(m).value)
  {
    if SampleColour(m).Some? {
      var ks := KeptPixels(m.pixels);
      assert forall c :: c in ks ==> IsByteColor(c);
      ColumnOfBytes(ks, 0);
      ColumnOfBytes(ks, 1);
      ColumnOfBytes(ks, 2);
      MeanBetween(ks, 0);
      MeanBetween(ks, 1);
      MeanBetween(ks, 2);
    }
  }
}

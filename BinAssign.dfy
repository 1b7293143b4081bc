/**
 * Bin assignment in `process_uploaded_image` (backend/data_processing.py:671-683): each
 * sampled county gets the index of the nearest legend colour, and a county without a
 * colour gets `None`. `pairwise_distances_argmin` is modelled directly as an argmin of
 * the squared Euclidean distance, which has the same minimisers as the distance itself.
 */
module BinAssign {
  import opened Wrappers
  import opened Colors

  /** `k` is the first index of a legend colour nearest to `c` (numpy's argmin rule). */
  predicate IsFirstNearest(c: Rgb, legend: seq<Rgb>, k: nat) {
    k < |legend|
    && (forall j :: 0 <= j < |legend| ==> SqDist(c, legend[k]) <= SqDist(c, legend[j]))
    && (forall j :: 0 <= j < k ==> SqDist(c, legend[k]) < SqDist(c, legend[j]))
  }

  /** The index `pairwise_distances_argmin` reports for one colour. */
  function ArgMin(c: Rgb, legend: seq<Rgb>): (k: nat)
    requires |legend| > 0
    ensures IsFirstNearest(c, legend, k)
  {
    if |legend| == 1 then 0
    else
      var init := legend[..|legend| - 1];
      var k := ArgMin(c, init);
      assert forall j :: 0 <= j < |init| ==> init[j] == legend[j];
      if SqDist(c, legend[|legend| - 1]) < SqDist(c, legend[k]) then |legend| - 1 else k
  }

  /** There is only one first nearest index, so the argmin is fully determined. */
  lemma FirstNearestUnique(c: Rgb, legend: seq<Rgb>, k1: nat, k2: nat)
    requires IsFirstNearest(c, legend, k1) && IsFirstNearest(c, legend, k2)
    ensures k1 == k2
  {
    var d1, d2 := SqDist(c, legend[k1]), SqDist(c, legend[k2]);
    assert d1 <= d2 && d2 <= d1;
  }

  /** Any index with the argmin's defining property is the argmin. */
  lemma ArgMinIsFirstNearest(c: Rgb, legend: seq<Rgb>, k: nat)
    requires |legend| > 0
    ensures IsFirstNearest(c, legend, k) <==> k == ArgMin(c, legend)
  {
    if IsFirstNearest(c, legend, k) {
      FirstNearestUnique(c, legend, k, ArgMin(c, legend));
    }
  }

  /** The bin a county with sampled `rgb` ends up in. */
  function BinOf(rgb: Option<Rgb>, legend: seq<Rgb>): Option<nat> {
    if rgb.Some? && |legend| > 0 then Some(ArgMin(rgb.value, legend)) else None
  }

  /** `pairwise_distances_argmin(rgb_array, legend_colors)`. */
  method NearestIndices(cs: seq<Rgb>, legend: seq<Rgb>) returns (ks: seq<nat>)
    requires |legend| > 0
    ensures |ks| == |cs|
    ensures forall k :: 0 <= k < |cs| ==> IsFirstNearest(cs[k], legend, ks[k])
  {
    ks := [];
    for i := 0 to |cs|
      invariant |ks| == i
      invariant forall k :: 0 <= k < i ==> IsFirstNearest(cs[k], legend, ks[k])
    {
      ks := ks + [ArgMin(cs[i], legend)];
    }
  }

  lemma ValidColoursStep(rgbs: seq<Option<Rgb>>, i: nat)
    requires i < |rgbs|
    ensures ValidColours(rgbs[..i + 1]) == ValidColours(rgbs[..i]) + (if rgbs[i].Some? then [rgbs[i].value] else [])
  {
    var p := rgbs[..i + 1];
    assert p[..|p| - 1] == rgbs[..i];
    assert p[|p| - 1] == rgbs[i];
  }

  lemma ValidColoursPrefix(rgbs: seq<Option<Rgb>>, i: nat)
    requires i <= |rgbs|
    ensures ValidColours(rgbs) == ValidColours(rgbs[..i]) + ValidColours(rgbs[i..])
  {
    assert rgbs == rgbs[..i] + rgbs[i..];
    ValidColoursAppend(rgbs[..i], rgbs[i..]);
  }

  /** The `i`-th county, when sampled, is entry `|ValidColours(rgbs[..i])|` of `rgb_array`. */
  lemma PairStep(rgbs: seq<Option<Rgb>>, legend: seq<Rgb>, binIndices: seq<nat>, i: nat)
    requires |legend| > 0 && |binIndices| == |ValidColours(rgbs)|
    requires forall k :: 0 <= k < |binIndices| ==> IsFirstNearest(ValidColours(rgbs)[k], legend, binIndices[k])
    requires i < |rgbs| && rgbs[i].Some?
    ensures |ValidColours(rgbs[..i])| < |binIndices|
    ensures binIndices[|ValidColours(rgbs[..i])|] == ArgMin(rgbs[i].value, legend)
  {
    var j := |ValidColours(rgbs[..i])|;
    ValidColoursStep(rgbs, i);
    ValidColoursPrefix(rgbs, i + 1);
    assert ValidColours(rgbs)[j] == rgbs[i].value;
    ArgMinIsFirstNearest(rgbs[i].value, legend, binIndices[j]);
  }

  /** The loop over `results` of the non-degenerate branch, given `bin_indices`. */
  method PairIndices(rgbs: seq<Option<Rgb>>, legend: seq<Rgb>, binIndices: seq<nat>) returns (binIndex: seq<Option<nat>>)
    requires |legend| > 0 && |binIndices| == |ValidColours(rgbs)|
    requires forall k :: 0 <= k < |binIndices| ==> IsFirstNearest(ValidColours(rgbs)[k], legend, binIndices[k])
    ensures |binIndex| == |rgbs|
    ensures forall k :: 0 <= k < |rgbs| ==> binIndex[k] == BinOf(rgbs[k], legend)
  {
    binIndex := [];
    var resultIdx := 0;
    for i := 0 to |rgbs|
      invariant |binIndex| == i
      invariant resultIdx == |ValidColours(rgbs[..i])|
      invariant forall k :: 0 <= k < i ==> binIndex[k] == BinOf(rgbs[k], legend)
    {
      ValidColoursStep(rgbs, i);
      if rgbs[i].Some? {
        PairStep(rgbs, legend, binIndices, i);
        binIndex := binIndex + [Some(binIndices[resultIdx])];
        resultIdx := resultIdx + 1;
      } else {
        binIndex := binIndex + [None];
      }
    }
  }

  /**
   * The assignment: `binIndex[k]` is the bin of county `k`, the nearest legend index for
   * a sampled county (lowest on ties) and `None` for an unsampled one, or for every
   * county when the legend is empty or nobody was sampled.
   */
  method AssignBins(rgbs: seq<Option<Rgb>>, legend: seq<Rgb>) returns (binIndex: seq<Option<nat>>)
    ensures |binIndex| == |rgbs|
    ensures forall k :: 0 <= k < |rgbs| ==> binIndex[k] == BinOf(rgbs[k], legend)
  {
    var rgbArray := ValidColours(rgbs);
    if |rgbArray| > 0 && |legend| > 0 {
      var binIndices := NearestIndices(rgbArray, legend);
      binIndex := PairIndices(rgbs, legend, binIndices);
    } else {
      binIndex := [];
      for i := 0 to |rgbs|
        invariant |binIndex| == i
        invariant forall k :: 0 <= k < i ==> binIndex[k] == BinOf(rgbs[k], legend)
      {
        if rgbs[i].Some? {
          assert rgbs[i] in rgbs;
        }
        binIndex := binIndex + [None];
      }
    }
  }

  /** A bin index always names a legend colour, and exactly the sampled counties get one. */
  lemma BinOfCases(rgb: Option<Rgb>, legend: seq<Rgb>)
    ensures BinOf(rgb, legend).Some? <==> rgb.Some? && |legend| > 0
    ensures BinOf(rgb, legend).Some? ==> BinOf(rgb, legend).value < |legend|
  {
  }

  /** A colour that is itself in the legend is assigned to the first legend entry equal to it. */
  lemma ExactColourBin(c: Rgb, legend: seq<Rgb>, k: nat)
    requires k < |legend| && legend[k] == c && forall j :: 0 <= j < k ==> legend[j] != c
    ensures BinOf(Some(c), legend) == Some(k)
  {
    assert SqDist(c, legend[k]) == 0;
    assert IsFirstNearest(c, legend, k);
    ArgMinIsFirstNearest(c, legend, k);
  }
}

/**
 * The data-driven legend of backend/data_processing.py (`generate_data_driven_legend`,
 * `rgb_leg`): `n_bins` colours, each channel the truncated `i / n_bins` quantile of the
 * sampled colours, channels taken independently.
 */
module DataLegend {
  import opened Wrappers
  import opened Colors
  import opened Sorting
  import opened Numeric

  /** `np.linspace(0, 1, n_bins + 1)` raises ValueError for a negative number of samples. */
  datatype LegendError = NegativeSampleCount

  /** `x + t * (y - x)`, numpy's interpolation between neighbouring order statistics. */
  function Lerp(x: int, y: int, t: real): real {
    x as real + t * (y - x) as real
  }

  /** The virtual index `q * (len - 1)` of the linear method. */
  function VirtualIndex(m: nat, q: real): (h: real)
    requires m > 0 && 0.0 <= q <= 1.0
    ensures 0.0 <= h <= (m - 1) as real
  {
    assert q * (m - 1) as real <= 1.0 * (m - 1) as real;
    q * (m - 1) as real
  }

  /** numpy's default (`linear`) quantile of a non-empty ascending sequence. */
  function Quantile(a: seq<int>, q: real): real
    requires |a| > 0 && 0.0 <= q <= 1.0
  {
    var h := VirtualIndex(|a|, q);
    var lo := h.Floor;
    if lo >= |a| - 1 then a[|a| - 1] as real
    else Lerp(a[lo], a[lo + 1], h - lo as real)
  }

  /** Linear interpolation between two ascending values stays between them. */
  lemma LerpBetween(x: int, y: int, t: real)
    requires x <= y && 0.0 <= t < 1.0
    ensures x as real <= Lerp(x, y, t) <= y as real
  {
    var d := (y - x) as real;
    assert t * d >= 0.0;
    assert (1.0 - t) * d >= 0.0;
    assert t * d <= d;
  }

  lemma LerpMonotone(x: int, y: int, t1: real, t2: real)
    requires x <= y && 0.0 <= t1 <= t2
    ensures Lerp(x, y, t1) <= Lerp(x, y, t2)
  {
    assert (t2 - t1) * (y - x) as real >= 0.0;
  }

  lemma VirtualIndexMonotone(m: nat, q1: real, q2: real)
    requires m > 0 && 0.0 <= q1 <= q2 <= 1.0
    ensures VirtualIndex(m, q1) <= VirtualIndex(m, q2)
  {
    RealMulMono(q1, q2, (m - 1) as real);
  }

  lemma RealMulMono(a: real, b: real, d: real)
    requires a <= b && 0.0 <= d
    ensures a * d <= b * d
  {
    assert b * d - a * d == (b - a) * d;
  }

  /** Every quantile lies between the smallest and the largest element. */
  lemma QuantileBounds(a: seq<int>, q: real)
    requires |a| > 0 && 0.0 <= q <= 1.0 && SortedAsc(a)
    ensures a[0] as real <= Quantile(a, q) <= a[|a| - 1] as real
  {
    var h := VirtualIndex(|a|, q);
    var lo := h.Floor;
    if lo < |a| - 1 {
      LerpBetween(a[lo], a[lo + 1], h - lo as real);
      assert a[0] <= a[lo] && a[lo + 1] <= a[|a| - 1];
    }
  }

  /** The 0 quantile is the smallest element. */
  lemma QuantileZero(a: seq<int>)
    requires |a| > 0
    ensures Quantile(a, 0.0) == a[0] as real
  {
    assert VirtualIndex(|a|, 0.0) == 0.0;
  }

  /** A larger quantile is never smaller. */
  lemma QuantileMonotone(a: seq<int>, q1: real, q2: real)
    requires |a| > 0 && 0.0 <= q1 <= q2 <= 1.0 && SortedAsc(a)
    ensures Quantile(a, q1) <= Quantile(a, q2)
  {
    var m := |a|;
    var h1, h2 := VirtualIndex(m, q1), VirtualIndex(m, q2);
    VirtualIndexMonotone(m, q1, q2);
    var lo1, lo2 := h1.Floor, h2.Floor;
    assert lo1 <= lo2;
    if lo1 == lo2 {
      if lo1 < m - 1 {
        LerpMonotone(a[lo1], a[lo1 + 1], h1 - lo1 as real, h2 - lo2 as real);
      }
    } else {
      LerpBetween(a[lo1], a[lo1 + 1], h1 - lo1 as real);
      if lo2 < m - 1 {
        LerpBetween(a[lo2], a[lo2 + 1], h2 - lo2 as real);
      }
      assert a[lo1 + 1] <= a[lo2];
    }
  }

  /** The quantile of bin `i` of `n`, `np.linspace(0, 1, n + 1)[i]`, is in [0, 1] and grows with `i`. */
  lemma BinFraction(i: nat, j: nat, n: nat)
    requires i <= j <= n && n > 0
    ensures 0.0 <= i as real / n as real <= j as real / n as real <= 1.0
  {
    assert i as real / n as real <= j as real / n as real;
    assert j as real / n as real <= n as real / n as real;
  }

  /** Channel `ch` of bin `i`: `int(np.quantile(column, i / n_bins))`. */
  function BinValue(sortedColumn: seq<int>, i: nat, n: nat): int
    requires |sortedColumn| > 0 && i < n
  {
    BinFraction(i, i, n);
    Trunc(Quantile(sortedColumn, i as real / n as real))
  }

  lemma BinValueBounds(a: seq<int>, i: nat, n: nat)
    requires |a| > 0 && i < n && SortedAsc(a)
    ensures a[0] <= BinValue(a, i, n) <= a[|a| - 1]
  {
    var q := i as real / n as real;
    BinFraction(i, i, n);
    QuantileBounds(a, q);
    TruncBetween(Quantile(a, q), a[0], a[|a| - 1]);
  }

  lemma BinValueZero(a: seq<int>, n: nat)
    requires |a| > 0 && 0 < n
    ensures BinValue(a, 0, n) == a[0]
  {
    assert 0 as real / n as real == 0.0;
    QuantileZero(a);
  }

  lemma BinValueMonotone(a: seq<int>, i: nat, j: nat, n: nat)
    requires |a| > 0 && i <= j < n && SortedAsc(a)
    ensures BinValue(a, i, n) <= BinValue(a, j, n)
  {
    var q1, q2 := i as real / n as real, j as real / n as real;
    BinFraction(i, j, n);
    QuantileMonotone(a, q1, q2);
    TruncMonotone(Quantile(a, q1), Quantile(a, q2));
  }

  /** The first `k` legend colours, from the three ascending columns. */
  function Bins(rs: seq<int>, gs: seq<int>, bs: seq<int>, n: nat, k: nat): (bins: seq<Rgb>)
    requires |rs| > 0 && |gs| > 0 && |bs| > 0 && k <= n
    ensures |bins| == k
  {
    if k == 0 then []
    else Bins(rs, gs, bs, n, k - 1) + [Rgb(BinValue(rs, k - 1, n), BinValue(gs, k - 1, n), BinValue(bs, k - 1, n))]
  }

  lemma {:induction false} BinsAt(rs: seq<int>, gs: seq<int>, bs: seq<int>, n: nat, k: nat, i: nat)
    requires |rs| > 0 && |gs| > 0 && |bs| > 0 && k <= n && i < k
    ensures Bins(rs, gs, bs, n, k)[i] == Rgb(BinValue(rs, i, n), BinValue(gs, i, n), BinValue(bs, i, n))
  {
    if i < k - 1 {
      BinsAt(rs, gs, bs, n, k - 1, i);
    }
  }

  /** What `generate_data_driven_legend(rgb_values, n_bins)` returns. */
  function DataDrivenLegend(rgbs: seq<Option<Rgb>>, nBins: int): Result<seq<Rgb>, LegendError> {
    var vs := ValidColours(rgbs);
    if vs == [] then Ok([])
    else if nBins + 1 < 0 then Err(NegativeSampleCount)
    else if nBins <= 0 then Ok([])
    else Ok(Bins(Sort(Column(vs, 0)), Sort(Column(vs, 1)), Sort(Column(vs, 2)), nBins, nBins))
  }

  /** The loop of `generate_data_driven_legend`, appending one colour per bin. */
  method LegendLoop(rs: seq<int>, gs: seq<int>, bs: seq<int>, n: nat) returns (legend: seq<Rgb>)
    requires |rs| > 0 && |gs| > 0 && |bs| > 0
    ensures legend == Bins(rs, gs, bs, n, n)
  {
    legend := [];
    var i := 0;
    while i < n
      invariant 0 <= i <= n
      invariant legend == Bins(rs, gs, bs, n, i)
    {
      legend := legend + [Rgb(BinValue(rs, i, n), BinValue(gs, i, n), BinValue(bs, i, n))];
      i := i + 1;
    }
  }

  method GenerateDataDrivenLegend(rgbs: seq<Option<Rgb>>, nBins: int) returns (r: Result<seq<Rgb>, LegendError>)
    ensures r == DataDrivenLegend(rgbs, nBins)
  {
    var vs := ValidColours(rgbs);
    if vs == [] {
      return Ok([]);
    }
    if nBins + 1 < 0 {
      return Err(NegativeSampleCount);
    }
    var n: nat := if nBins < 0 then 0 else nBins;
    var legend := LegendLoop(Sort(Column(vs, 0)), Sort(Column(vs, 1)), Sort(Column(vs, 2)), n);
    return Ok(legend);
  }

  /** `rgb_leg` is `generate_data_driven_legend` under another name. */
  method RgbLeg(rgbs: seq<Option<Rgb>>, nBins: int) returns (r: Result<seq<Rgb>, LegendError>)
    ensures r == DataDrivenLegend(rgbs, nBins)
  {
    r := GenerateDataDrivenLegend(rgbs, nBins);
  }

  // ---------------------------------------------------------------------
  // Properties

  /**
   * The legend is empty when no colour was sampled; otherwise it fails only for
   * `n_bins < -1` and has exactly `n_bins` colours.
   */
  lemma LegendCount(rgbs: seq<Option<Rgb>>, nBins: int)
    ensures DataDrivenLegend(rgbs, nBins).Err? <==> (exists c :: Some(c) in rgbs) && nBins < -1
    ensures DataDrivenLegend(rgbs, nBins).Ok? ==>
      |DataDrivenLegend(rgbs, nBins).value| == (if ValidColours(rgbs) == [] || nBins < 0 then 0 else nBins)
  {
    var vs := ValidColours(rgbs);
    if vs != [] {
      assert Some(vs[0]) in rgbs;
    }
  }

  /** Channel `ch` of the `i`-th colour of a non-empty legend. */
  lemma ChannelOfBin(vs: seq<Rgb>, nBins: nat, i: nat, ch: nat)
    requires vs != [] && i < nBins && ch < 3
    ensures Channel(Bins(Sort(Column(vs, 0)), Sort(Column(vs, 1)), Sort(Column(vs, 2)), nBins, nBins)[i], ch)
      == BinValue(Sort(Column(vs, ch)), i, nBins)
  {
    BinsAt(Sort(Column(vs, 0)), Sort(Column(vs, 1)), Sort(Column(vs, 2)), nBins, nBins, i);
  }

  /** A bin's channel lies between the channel's minimum and maximum over the sampled colours. */
  lemma BinWithinRange(vs: seq<Rgb>, nBins: nat, i: nat, ch: nat)
    requires vs != [] && i < nBins && ch < 3
    ensures MinOf(Column(vs, ch)) <= BinValue(Sort(Column(vs, ch)), i, nBins) <= MaxOf(Column(vs, ch))
  {
    var col := Column(vs, ch);
    SortEndsAreMinMax(col);
    SortSpec(col);
    BinValueBounds(Sort(col), i, nBins);
  }

  /** The first bin is the channel minimum. */
  lemma FirstBinIsMin(vs: seq<Rgb>, nBins: nat, ch: nat)
    requires vs != [] && 0 < nBins && ch < 3
    ensures BinValue(Sort(Column(vs, ch)), 0, nBins) == MinOf(Column(vs, ch))
  {
    var col := Column(vs, ch);
    SortEndsAreMinMax(col);
    BinValueZero(Sort(col), nBins);
  }

  /** Channels never decrease from one bin to the next. */
  lemma BinsMonotone(vs: seq<Rgb>, nBins: nat, i: nat, j: nat, ch: nat)
    requires vs != [] && i <= j < nBins && ch < 3
    ensures BinValue(Sort(Column(vs, ch)), i, nBins) <= BinValue(Sort(Column(vs, ch)), j, nBins)
  {
    SortSpec(Column(vs, ch));
    BinValueMonotone(Sort(Column(vs, ch)), i, j, nBins);
  }

  /** Bin 0, monotonicity and range for the bins of the non-empty sampled colours `vs`. */
  lemma BinsShape(vs: seq<Rgb>, n: nat, ch: nat)
    requires vs != [] && 0 < n && ch < 3
    ensures var bins := Bins(Sort(Column(vs, 0)), Sort(Column(vs, 1)), Sort(Column(vs, 2)), n, n);
      var col := Column(vs, ch);
      Channel(bins[0], ch) == MinOf(col)
      && (forall i, j :: 0 <= i <= j < |bins| ==> Channel(bins[i], ch) <= Channel(bins[j], ch))
      && (forall i :: 0 <= i < |bins| ==> MinOf(col) <= Channel(bins[i], ch) <= MaxOf(col))
  {
    var bins := Bins(Sort(Column(vs, 0)), Sort(Column(vs, 1)), Sort(Column(vs, 2)), n, n);
    ChannelOfBin(vs, n, 0, ch);
    FirstBinIsMin(vs, n, ch);
    forall i, j | 0 <= i <= j < |bins|
      ensures Channel(bins[i], ch) <= Channel(bins[j], ch)
    {
      ChannelOfBin(vs, n, i, ch);
      ChannelOfBin(vs, n, j, ch);
      BinsMonotone(vs, n, i, j, ch);
    }
    forall i | 0 <= i < |bins|
      ensures MinOf(Column(vs, ch)) <= Channel(bins[i], ch) <= MaxOf(Column(vs, ch))
    {
      ChannelOfBin(vs, n, i, ch);
      BinWithinRange(vs, n, i, ch);
    }
  }

  /**
   * The legend's promises over the sampled colours `vs`: bin 0 is the per-channel minimum,
   * channels are non-decreasing across bins and stay within the channel's range.
   */
  lemma LegendShape(rgbs: seq<Option<Rgb>>, nBins: int, ch: nat)
    requires ch < 3 && DataDrivenLegend(rgbs, nBins).Ok?
    ensures var bins := DataDrivenLegend(rgbs, nBins).value;
      var col := Column(ValidColours(rgbs), ch);
      (|bins| > 0 ==> Channel(bins[0], ch) == MinOf(col))
      && (forall i, j :: 0 <= i <= j < |bins| ==> Channel(bins[i], ch) <= Channel(bins[j], ch))
      && (forall i :: 0 <= i < |bins| ==> MinOf(col) <= Channel(bins[i], ch) <= MaxOf(col))
  {
    var vs := ValidColours(rgbs);
    if vs != [] && nBins > 0 {
      var n: nat := nBins;
      assert DataDrivenLegend(rgbs, nBins).value
        == Bins(Sort(Column(vs, 0)), Sort(Column(vs, 1)), Sort(Column(vs, 2)), n, n);
      BinsShape(vs, n, ch);
    } else {
      assert DataDrivenLegend(rgbs, nBins).value == [];
    }
  }
}

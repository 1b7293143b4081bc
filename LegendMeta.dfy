/**
 * The classification step of `process_uploaded_image` (backend/data_processing.py:658-683)
 * and the legend document it writes (backend/data_processing.py:741-773): the choice
 * between the legend read from the user's selection and the data-driven one, the bin
 * index of every county, the `value_ranges` and the `data_range`.
 */
module LegendMeta {
  import opened Wrappers
  import opened Colors
  import opened Sorting
  import opened Text
  import opened LegendText
  import opened DataLegend
  import opened ColorSampling
  import opened BinAssign
  import LegendSelection

  /** The `type` field of the legend document. */
  datatype LegendKind = UserDefined | DataDriven

  /** The legend the counties are classified against: `legend_colors` and `legend_labels`. */
  datatype Classes = Classes(colors: seq<Rgb>, labels: seq<string>)

  /** One entry of `value_ranges`. */
  datatype ValueRange = ValueRange(lo: real, hi: real, name: string)

  datatype ChannelRange = ChannelRange(lo: int, hi: int)

  /** `data_range`: the minimum and maximum of each channel. */
  datatype DataRange = DataRange(r: ChannelRange, g: ChannelRange, b: ChannelRange)

  /** The legend document, without the file it is written to. */
  datatype LegendDoc = LegendDoc(
    kind: LegendKind, nBins: nat, colors: seq<Rgb>, labels: seq<string>,
    valueRanges: seq<ValueRange>, dataRange: DataRange)

  function EntryColours(es: seq<LegendEntry>): (cs: seq<Rgb>)
    ensures |cs| == |es| && forall k :: 0 <= k < |es| ==> cs[k] == es[k].rgb
  {
    if es == [] then [] else [es[0].rgb] + EntryColours(es[1..])
  }

  function EntryNames(es: seq<LegendEntry>): (ns: seq<string>)
    ensures |ns| == |es| && forall k :: 0 <= k < |es| ==> ns[k] == es[k].name
  {
    if es == [] then [] else [es[0].name] + EntryNames(es[1..])
  }

  /** `[f"Bin {i+1}" for i in range(n)]`. */
  function BinLabels(n: nat): (labels: seq<string>)
    ensures |labels| == n
  {
    if n == 0 then [] else BinLabels(n - 1) + ["Bin " + NatToString(n)]
  }

  lemma {:induction false} BinLabelsAt(n: nat, i: nat)
    requires i < n
    ensures BinLabels(n)[i] == "Bin " + NatToString(i + 1)
  {
    if i < n - 1 {
      BinLabelsAt(n - 1, i);
    }
  }

  /**
   * Lines 658-669: a user legend of at least two entries wins; otherwise the data-driven
   * legend, whose failure is raised, is labelled "Bin 1", "Bin 2", ...
   */
  function ChooseLegend(userLegend: Option<seq<LegendEntry>>, dataLegend: Result<seq<Rgb>, LegendError>): Result<Classes, LegendError> {
    if userLegend.Some? && |userLegend.value| >= 2 then
      Ok(Classes(EntryColours(userLegend.value), EntryNames(userLegend.value)))
    else if dataLegend.Err? then Err(dataLegend.error)
    else Ok(Classes(dataLegend.value, BinLabels(|dataLegend.value|)))
  }

  /** `"user_defined_legend" if user_legend else "data_driven_legend"`: Python truthiness of a list. */
  function KindOf(userLegend: Option<seq<LegendEntry>>): LegendKind {
    if userLegend.Some? && |userLegend.value| > 0 then UserDefined else DataDriven
  }

  /** The `value_ranges` loop: label `i` of `n` covers `[i/n, (i+1)/n]`. */
  method ValueRanges(labels: seq<string>) returns (ranges: seq<ValueRange>)
    ensures |ranges| == |labels|
    ensures forall i :: 0 <= i < |ranges| ==>
      ranges[i] == ValueRange(i as real / |labels| as real, (i + 1) as real / |labels| as real, labels[i])
    ensures forall i :: 0 <= i < |ranges| ==> 0.0 <= ranges[i].lo < ranges[i].hi <= 1.0
    ensures forall i :: 0 <= i < |ranges| - 1 ==> ranges[i].hi == ranges[i + 1].lo
    ensures |ranges| > 0 ==> ranges[0].lo == 0.0 && ranges[|ranges| - 1].hi == 1.0
  {
    var n := |labels|;
    ranges := [];
    for i := 0 to n
      invariant |ranges| == i
      invariant forall k :: 0 <= k < i ==>
        ranges[k] == ValueRange(k as real / n as real, (k + 1) as real / n as real, labels[k])
      invariant forall k :: 0 <= k < i ==> 0.0 <= ranges[k].lo < ranges[k].hi <= 1.0
    {
      FractionOrder(i, n);
      ranges := ranges + [ValueRange(i as real / n as real, (i + 1) as real / n as real, labels[i])];
    }
  }

  lemma FractionOrder(i: nat, n: nat)
    requires i < n
    ensures 0.0 <= i as real / n as real < (i + 1) as real / n as real <= 1.0
  {
    var d := n as real;
    assert (i + 1) as real / d == i as real / d + 1.0 / d;
    assert (i + 1) as real <= d;
  }

  /** The range of channel `ch` over the sampled colours, or `[0, 255]` when there are none. */
  function ChannelRangeOf(valid: seq<Rgb>, ch: nat): ChannelRange
    requires ch < 3
  {
    if |valid| > 0 then ChannelRange(MinOf(Column(valid, ch)), MaxOf(Column(valid, ch)))
    else ChannelRange(0, 255)
  }

  /** Lines 741-747: `data_range` over `rgb_array`, the colours of the sampled counties. */
  function DataRangeOf(rgbs: seq<Option<Rgb>>): DataRange {
    var valid := ValidColours(rgbs);
    DataRange(ChannelRangeOf(valid, 0), ChannelRangeOf(valid, 1), ChannelRangeOf(valid, 2))
  }

  function RangeOfChannel(d: DataRange, ch: nat): ChannelRange
    requires ch < 3
  {
    if ch == 0 then d.r else if ch == 1 then d.g else d.b
  }

  lemma ChannelRangeBounds(valid: seq<Rgb>, ch: nat)
    requires |valid| > 0 && ch < 3
    ensures var cr := ChannelRangeOf(valid, ch);
      && (forall k :: 0 <= k < |valid| ==> cr.lo <= Channel(valid[k], ch) <= cr.hi)
      && (exists k :: 0 <= k < |valid| && Channel(valid[k], ch) == cr.lo)
      && (exists k :: 0 <= k < |valid| && Channel(valid[k], ch) == cr.hi)
  {
    var col := Column(valid, ch);
    var cr := ChannelRangeOf(valid, ch);
    var i :| 0 <= i < |col| && col[i] == cr.lo;
    var j :| 0 <= j < |col| && col[j] == cr.hi;
    assert Channel(valid[i], ch) == cr.lo && Channel(valid[j], ch) == cr.hi;
  }

  /** With no county sampled, every channel's range is `[0, 255]`. */
  lemma DataRangeDefault(rgbs: seq<Option<Rgb>>, ch: nat)
    requires ch < 3 && forall c :: Some(c) !in rgbs
    ensures RangeOfChannel(DataRangeOf(rgbs), ch) == ChannelRange(0, 255)
  {
    if |ValidColours(rgbs)| > 0 {
      assert ValidColours(rgbs)[0] in ValidColours(rgbs);
    }
  }

  lemma DataRangeChannel(rgbs: seq<Option<Rgb>>, ch: nat)
    requires ch < 3
    ensures RangeOfChannel(DataRangeOf(rgbs), ch) == ChannelRangeOf(ValidColours(rgbs), ch)
  {
    var valid := ValidColours(rgbs);
    assert DataRangeOf(rgbs) == DataRange(ChannelRangeOf(valid, 0), ChannelRangeOf(valid, 1), ChannelRangeOf(valid, 2));
    if ch == 0 {
      assert RangeOfChannel(DataRangeOf(rgbs), ch) == ChannelRangeOf(valid, 0);
    } else if ch == 1 {
      assert RangeOfChannel(DataRangeOf(rgbs), ch) == ChannelRangeOf(valid, 1);
    } else {
      assert RangeOfChannel(DataRangeOf(rgbs), ch) == ChannelRangeOf(valid, 2);
    }
  }

  /** Each channel's range bounds that channel of every sampled colour. */
  lemma DataRangeBounds(rgbs: seq<Option<Rgb>>, ch: nat, c: Rgb)
    requires ch < 3 && Some(c) in rgbs
    ensures RangeOfChannel(DataRangeOf(rgbs), ch).lo <= Channel(c, ch) <= RangeOfChannel(DataRangeOf(rgbs), ch).hi
  {
    var valid := ValidColours(rgbs);
    DataRangeChannel(rgbs, ch);
    assert c in valid;
    var k :| 0 <= k < |valid| && valid[k] == c;
    ChannelRangeBounds(valid, ch);
    assert Channel(valid[k], ch) == Channel(c, ch);
  }

  /** With some county sampled, both ends of each channel's range are sampled values. */
  lemma DataRangeAttained(rgbs: seq<Option<Rgb>>, ch: nat, c0: Rgb)
    requires ch < 3 && Some(c0) in rgbs
    ensures exists c :: Some(c) in rgbs && Channel(c, ch) == RangeOfChannel(DataRangeOf(rgbs), ch).lo
    ensures exists c :: Some(c) in rgbs && Channel(c, ch) == RangeOfChannel(DataRangeOf(rgbs), ch).hi
  {
    var valid := ValidColours(rgbs);
    DataRangeChannel(rgbs, ch);
    assert c0 in valid;
    ChannelRangeBounds(valid, ch);
    var i :| 0 <= i < |valid| && Channel(valid[i], ch) == ChannelRangeOf(valid, ch).lo;
    var j :| 0 <= j < |valid| && Channel(valid[j], ch) == ChannelRangeOf(valid, ch).hi;
    assert valid[i] in valid && valid[j] in valid;
  }

  /**
   * Lines 658-683 and 741-773 together: choose the legend, assign each county to a bin and
   * describe the legend. Fails only where `rgb_leg` raises.
   */
  method Classify(samples: seq<Sample>, userLegend: Option<seq<LegendEntry>>, nBins: int)
    returns (r: Result<(seq<Option<nat>>, LegendDoc), LegendError>)
    ensures var rgbs := RgbsOf(samples);
      r.Err? <==> ChooseLegend(userLegend, DataDrivenLegend(rgbs, nBins)).Err?
    ensures var rgbs := RgbsOf(samples);
      r.Ok? ==>
        var classes := ChooseLegend(userLegend, DataDrivenLegend(rgbs, nBins)).value;
        var (binIndex, doc) := r.value;
        && doc.kind == KindOf(userLegend)
        && doc.colors == classes.colors && doc.labels == classes.labels
        && doc.nBins == |classes.colors| == |classes.labels| == |doc.valueRanges|
        && doc.dataRange == DataRangeOf(rgbs)
        && (forall i :: 0 <= i < |doc.valueRanges| ==>
          doc.valueRanges[i] == ValueRange(i as real / doc.nBins as real, (i + 1) as real / doc.nBins as real, doc.labels[i]))
        && |binIndex| == |samples|
        && forall k :: 0 <= k < |samples| ==> binIndex[k] == BinOf(samples[k].rgb, classes.colors)
  {
    var rgbs := RgbsOf(samples);
    var classes: Classes;
    if userLegend.Some? && |userLegend.value| >= 2 {
      classes := Classes(EntryColours(userLegend.value), EntryNames(userLegend.value));
    } else {
      var data := RgbLeg(rgbs, nBins);
      if data.Err? {
        return Err(data.error);
      }
      classes := Classes(data.value, BinLabels(|data.value|));
    }
    assert ChooseLegend(userLegend, DataDrivenLegend(rgbs, nBins)) == Ok(classes);
    var binIndex := AssignBins(rgbs, classes.colors);
    var ranges := ValueRanges(classes.labels);
    var doc := LegendDoc(KindOf(userLegend), |classes.colors|, classes.colors, classes.labels, ranges, DataRangeOf(rgbs));
    r := Ok((binIndex, doc));
  }

  /** `all_rgb_values`: the sampled colour of every county, in order. */
  function RgbsOf(samples: seq<Sample>): (rgbs: seq<Option<Rgb>>)
    ensures |rgbs| == |samples| && forall k :: 0 <= k < |samples| ==> rgbs[k] == samples[k].rgb
  {
    if samples == [] then [] else [samples[0].rgb] + RgbsOf(samples[1..])
  }

  // ---------------------------------------------------------------------
  // Properties

  /** A user legend of two or more entries is used as is, whatever the data-driven legend would be. */
  lemma UserLegendWins(u: seq<LegendEntry>, dataLegend: Result<seq<Rgb>, LegendError>)
    requires |u| >= 2
    ensures ChooseLegend(Some(u), dataLegend).Ok?
    ensures var c := ChooseLegend(Some(u), dataLegend).value;
      |c.colors| == |c.labels| == |u|
      && forall k :: 0 <= k < |u| ==> LegendEntry(c.colors[k], c.labels[k]) == u[k]
  {
  }

  /** Without a usable user legend the data-driven colours are labelled "Bin 1", "Bin 2", ... */
  lemma DataLegendLabels(userLegend: Option<seq<LegendEntry>>, colours: seq<Rgb>)
    requires userLegend.None? || |userLegend.value| < 2
    ensures ChooseLegend(userLegend, Ok(colours)) == Ok(Classes(colours, BinLabels(|colours|)))
    ensures forall i :: 0 <= i < |colours| ==> BinLabels(|colours|)[i] == "Bin " + NatToString(i + 1)
  {
    forall i | 0 <= i < |colours| ensures BinLabels(|colours|)[i] == "Bin " + NatToString(i + 1) {
      BinLabelsAt(|colours|, i);
    }
  }

  /**
   * For the legend read from a selection, the document's type says "user defined" exactly
   * when that legend was the one used for classification.
   */
  lemma KindMatchesChoice(img: LegendSelection.Raster, sel: Option<LegendSelection.Selection>)
    ensures var u := LegendSelection.SelectionLegend(img, sel, SqDist);
      KindOf(u) == UserDefined <==> u.Some? && |u.value| >= 2
  {
  }
}

# A verified model of the choropleth map data extraction pipeline

The pipeline takes a scanned choropleth map of US counties. It finds the map panel,
registers county shapes onto the panel, samples each county's colour and classifies
that colour against a legend. This project models the exact, discrete parts of that
pipeline in Dafny and proves what the code promises about them:

- legend text parsing;
- the data-driven and user-selected legends;
- per-county colour sampling;
- nearest-colour bin assignment;
- legend metadata;
- the region shapefile paths;
- the fit-to-box, affine and projective transforms and the geometry maps built on them;
- the alignment search with its fallbacks;
- the inset selection;
- panel detection over precomputed profiles;
- request and bounds normalisation in the web backend;
- the GEOID filters and region partition of the two shapefile scripts.

Numbers are exact: pixel values and indices are `int`/`nat`, coordinates and scores are
`real`. Images, edge maps, contours, solvers, nearest-neighbour trees and trigonometry enter
as parameters. Each operation keeps the form of its source. A loop that builds a list or
keeps a running best is a `method` with a `while` loop. That method is proved equal to a
specification function, and the properties are lemmas about that function. Straight-line
code and comprehensions are functions.

| module | models |
|---|---|
| `Wrappers` | `Option` and `Result` |
| `Numeric`, `Sorting`, `Text` | `int()` truncation, `min`/`max`, `np.quantile`, `str.strip`, `split`, `zfill`, `int(s, base)` and the other Python built-ins the code relies on |
| `Colors` | RGB triples and squared distance |
| `LegendText` | `parse_legend_text` (backend/data_processing.py) |
| `DataLegend` | `generate_data_driven_legend` and the `rgb_leg` quantile rows |
| `LegendSelection` | `extract_legend_from_selection`: clamp, crop, de-duplication, luminance sort, labels |
| `ColorSampling` | the per-county sampling loop |
| `BinAssign` | nearest-colour bin assignment with `result_idx` |
| `LegendMeta` | `value_ranges`, `data_range` and the legend type |
| `RegionFiles` | `_get_region_shapefile_path`, `_get_region_outline_path`, selection to bbox |
| `ConusFilter` | create_conus_shapefile.py |
| `RegionPartition` | create_separate_region_shapefiles.py |
| `Geometry` | shapely geometries, GeoDataFrame rows and the coordinate maps |
| `Homography` | backend/utils/homography.py |
| `GeoTransform` | backend/utils/geo_transform.py |
| `Tps` | backend/utils/tps.py |
| `GeoAlign` | `fit_gdf_to_bbox_pixels`, `_extract_shapefile_edge_points`, `_edge_overlap_score`, `fit_with_autoinset` |
| `AlignSearch`, `AlignRefine` | `refine_alignment_with_edge_matching`: scoring, the coarse and fine grids, the fallback ladder |
| `PanelDetect` | `detect_map_panel_like_screenshot` and `detect_panel_bounds` |
| `Json` | the dictionary, list and string operations the request handlers apply to parsed JSON |
| `BoundsSchema` | the pydantic records of backend/schemas/bounds.py, their validation and `model_dump` |
| `App` | `_sanitize_upload_id`, the layer and projection fields, `set_bounds`, the bounds reuse rule, the preview defaults, GEOID construction |

Where the code and its comments or names disagree, the model follows the code:

- `transform_gdf_with_homography` applies an affine map anchored on `rect4[0]` and
  `rect4[2]`, not a homography.
- `CanvasRect4.rect4` is documented as four clockwise corners, but validation accepts a list
  of any length.
- The reuse rule compares the first canvas's confidence with 0.75. The comment beside it
  speaks of 0.8.
- `create_homography_for_region` pairs `(xmin, ymin)` with `rect4[0]`. homography.py's
  geographic corners pair `(xmin, ymax)` with it instead (`GeoTransform.RegionPairing`).
- The coarse acceptance test in `refine_alignment_with_edge_matching` has three disjuncts.
  The two extra ones never accept anything the strict improvement does not
  (`AlignSearch.ShouldAcceptIsImprovement`).
- The fine stage applies its absolute angles around the coarse best's angle to the frame
  that is already rotated by the coarse best. `AlignRefine.FineStageFrame` states this
  composition as the code does it.
- A worse fallback rotation within 20% of the held score replaces it
  (`AlignSearch.FallbackKeepsLastWithinSlack`), so fallback 1 does not find a minimum.

## Model

| member | source | states |
|---|---|---|
| Numeric.Trunc | backend/data_processing.py:117-119 | Python's `int()` on a float truncates toward zero: below or at the value for non-negative input, above or at it for negative input, within one |
| Numeric.TruncMonotone | backend/data_processing.py:117-119 | truncation never reverses the order of two values |
| Numeric.TruncBetween | backend/data_processing.py:117-119 | a value between two integers truncates to an integer between them (used for the truncated quantiles) |
| Numeric.TruncOfInt | backend/data_processing.py:137-140 | `int()` of a whole number is that number |
| Numeric.Min | backend/data_processing.py:143-146 | `min` is a lower bound of both arguments and one of them |
| Numeric.Max | backend/data_processing.py:143-144 | `max` is an upper bound of both arguments and one of them |
| Numeric.GridIndex | backend/data_processing.py:152 | the row-major index `r * w + col` of a cell of an `h` by `w` grid is below `h * w` |
| Sorting.Insert | backend/data_processing.py:113-115 | inserting one value lengthens the sequence by one |
| Sorting.InsertSorted | backend/data_processing.py:113-115 | inserting into an ascending sequence keeps it ascending, and the new head is the smaller of the value and the old head |
| Sorting.InsertPerm | backend/data_processing.py:113-115 | insertion adds exactly one occurrence of the value (multiset) |
| Sorting.Sort | backend/data_processing.py:113-115 | the sorted channel has the length of the channel |
| Sorting.SortSorted | backend/data_processing.py:113-115 | the sort `np.quantile` applies before interpolating is ascending |
| Sorting.SortPerm | backend/data_processing.py:113-115 | the sort is a permutation of the channel (multiset equality) |
| Sorting.SortSpec | backend/data_processing.py:113-115 | ascending and a permutation, together |
| Sorting.SortEnds | backend/data_processing.py:113-115 | the first sorted value is in the channel and below every value, the last is in it and above every value |
| Sorting.MinOf | backend/data_processing.py:113-115 | the minimum is an element and a lower bound |
| Sorting.MaxOf | backend/data_processing.py:113-115 | the maximum is an element and an upper bound |
| Sorting.SortEndsAreMinMax | backend/data_processing.py:113-115 | the ends of the sorted channel are exactly its minimum and maximum |
| Colors.SqDist | backend/data_processing.py:161 | the idealised squared colour distance is zero exactly when the two colours are equal |
| Colors.ValidColours | backend/data_processing.py:105 | the non-null colours are those `c` with `Some(c)` among the samples, with no more entries than samples |
| Colors.ValidColoursAppend | backend/data_processing.py:105 | filtering null colours distributes over concatenation, so order is kept |
| Colors.Column | backend/data_processing.py:113-115 | `rgb_array[:, ch]` has one entry per colour, entry `k` being channel `ch` of colour `k` |
| Text.StripLeft | backend/data_processing.py:70 | removing leading whitespace leaves a suffix that is empty or starts with a non-space |
| Text.StripRight | backend/data_processing.py:70 | removing trailing whitespace leaves a prefix that is empty or ends with a non-space |
| Text.Strip | backend/data_processing.py:70 | `str.strip()` leaves a string that is empty or begins and ends with non-whitespace |
| Text.StripOfTrimmed | backend/data_processing.py:76 | a string with no surrounding whitespace is its own `strip()` |
| Text.IndexOf | backend/data_processing.py:74-75 | the first index of a character, or the length when it is absent: no earlier position holds it |
| Text.IndexOfAppend | backend/data_processing.py:74-75 | in `a + [c] + b` with `c` not in `a`, the first `c` is at `|a|` |
| Text.Split | backend/data_processing.py:92 | `str.split(sep)` always returns at least one piece |
| Text.SplitJoin | backend/data_processing.py:92 | `a + sep + b` splits into `a` followed by the pieces of `b` when `a` holds no separator |
| Text.SplitNone | backend/data_processing.py:92 | a string without the separator splits into itself alone |
| Text.SplitLines | backend/data_processing.py:69 | `str.splitlines()` pieces contain no line-break character |
| Text.FirstLineBreak | backend/data_processing.py:69 | the first line-break position, or the length: nothing earlier is a break |
| Text.SplitLinesSingle | backend/data_processing.py:69 | a non-empty text without line breaks is one line |
| Text.LStripChar | backend/data_processing.py:85 | `lstrip("#")` leaves a suffix that is empty or does not start with `#` |
| Text.DigitValue | backend/data_processing.py:87-89 | a digit's value is below 16, and below 10 for a decimal digit |
| Text.BodyDigits | backend/data_processing.py:87-89 | the digits of a valid `int()` body, underscores removed, are all digits of the base |
| Text.PlainDigitsBody | backend/data_processing.py:87-89 | a plain digit string is a valid body and is its own digit string |
| Text.ParsePlainDigits | backend/data_processing.py:87-89 | `int(s, base)` of an unsigned, underscore-free digit string is its positional value, for base 10 within the 4300-digit limit |
| Text.LongDecimalRefused | backend/data_processing.py:87-89 | `int` refuses a decimal digit string of more than 4300 digits, while the same string is read in base 16 |
| Text.NatToStringShort | backend/data_processing.py:95 | numbers below 1000 render in three digits at most |
| Text.DecimalDigitChar | backend/data_processing.py:95 | the character of a decimal digit has that value |
| Text.HexDigitChar | backend/data_processing.py:87-89 | the character of a hex digit has that value and is none of the separators |
| Text.NatToString | backend/data_processing.py:62-66 | `str(n)` is a non-empty decimal digit string |
| Text.NatToStringValue | backend/data_processing.py:62-66 | the digits of `str(n)` have value `n` |
| Text.NatToStringParses | backend/data_processing.py:95 | `int(str(n), 10) == n` within the 4300-digit limit |
| Text.HexByte | backend/data_processing.py:62-66 | the two hex digits of a byte have the byte's value |
| Text.DigitsValuePair | backend/data_processing.py:87-89 | two hex digits have value `16 * hi + lo` |
| Text.HexPairParses | backend/data_processing.py:87-89 | `int(ab, 16)` of two hex digits is `16 * a + b` |
| Text.HexByteParses | backend/data_processing.py:87-89 | rendering a byte in hex and reading it back with `int(_, 16)` gives the byte |
| Text.ParseInt | backend/data_processing.py:87-89 | `int` raises on a text holding any of U+001C..U+001F, which `str.strip` removes but `int` neither skips nor reads |
| Text.IntRefusesInfoSeparator | backend/data_processing.py:87-89 | Example: `"\x1fA"` strips to `"A"`, yet `int("\x1fA", 16)` raises |
| Text.IntSkipsSpaces | backend/data_processing.py:87-89 | Example: `int(" A\n", 16)` skips the surrounding ASCII whitespace and is 10 |
| Text.DigitsHaveNoSeparator | backend/data_processing.py:87-89 | a run of digits holds none of U+001C..U+001F |
| Text.TwoHexDigitsParse | backend/data_processing.py:87-89 | a two-character hex string of known value parses to it |
| Text.Repeat | backend/app.py:736 | `n` copies of one character |
| Text.ZFill | backend/app.py:736-744 | `str.zfill(width)` has the larger of the length and the width, and changes nothing when the string is already wide enough |
| Text.LowerChar | backend/app.py:38 | lower-casing maps `A`..`Z` into `a`..`z` and keeps every other character |
| Text.UpperChar | backend/app.py:391 | upper-casing maps `a`..`z` into `A`..`Z` and keeps every other character |
| Text.Lower | backend/app.py:38 | `str.lower()` applies the character map position by position |
| Text.Upper | backend/app.py:391 | `str.upper()` applies the character map position by position |
| LegendText.SplitColourLabel | backend/data_processing.py:74-79 | the label after the first colon is stripped, so it is empty or has no surrounding whitespace |
| LegendText.ParseHexColour | backend/data_processing.py:86-90 | a hex colour is never dropped: it is the colour of the three chunks exactly when `int(_, 16)` accepts all three, and otherwise the ValueError of the first refused chunk, red before green before blue |
| LegendText.ParseLine | backend/data_processing.py:69-100 | a line is skipped as blank exactly when its stripped form is empty; a parsed entry's label is stripped |
| LegendText.Outcomes | backend/data_processing.py:69 | one outcome per line of the text |
| LegendText.Entries | backend/data_processing.py:99-100 | no more entries than lines |
| LegendText.SummaryStep | backend/data_processing.py:69-100 | the summary of one more line is the previous summary extended by that line's outcome (the loop's step) |
| LegendText.ParseLegendText | backend/data_processing.py:60-101 | the line loop returns the summary of the outcomes of `splitlines()`: the first ValueError, or every parsed entry in order |
| LegendText.SummaryKeepsError | backend/data_processing.py:87-89 | once a line raises, no later line changes the result |
| LegendText.SummaryOk | backend/data_processing.py:68-100 | the parse succeeds exactly when no line raises, and then returns the parsed entries in input order |
| LegendText.SummaryErr | backend/data_processing.py:87-89 | a failing parse reports the error of the first raising line, and no earlier line raised |
| LegendText.EntriesAppend | backend/data_processing.py:99-100 | the entries of two runs of lines are the entries of the first followed by those of the second |
| LegendText.EntriesOfLine | backend/data_processing.py:99-100 | a parsed line contributes exactly its own entry between its neighbours'; any other line contributes nothing |
| LegendText.EntriesCount | backend/data_processing.py:99-100 | there is one entry per line that parses |
| LegendText.ColourCharsAppend | backend/data_processing.py:62-66 | concatenating colour texts stays free of spaces, breaks and colons |
| LegendText.DecimalColour | backend/data_processing.py:62-66 | the rendered `r,g,b` is non-empty and free of spaces, breaks and colons |
| LegendText.HexColour | backend/data_processing.py:62-66 | the rendered `#RRGGBB` has seven such characters |
| LegendText.StripRightAppend | backend/data_processing.py:70 | right-stripping `a + b` where `a` ends in a non-space only strips `b` |
| LegendText.StripLegendLine | backend/data_processing.py:70 | stripping `C: L` only removes what trails the colon |
| LegendText.StripSpacedName | backend/data_processing.py:76 | stripping the text after the colon returns the label |
| LegendText.SplitAtColon | backend/data_processing.py:74-76 | a colour without colons followed by `:` splits there, with the stripped rest as label |
| LegendText.NoBreakLegendLine | backend/data_processing.py:69 | a rendered legend line contains no line break |
| LegendText.LegendLineParses | backend/data_processing.py:62-100 | a rendered line `C: L` is one line and parses to the entry of `C`'s colour and `L` |
| LegendText.LineParsesToEntry | backend/data_processing.py:70-100 | the line `C: L` is classified as that entry |
| LegendText.ColourHead | backend/data_processing.py:81 | a rendered colour does not start with whitespace |
| LegendText.SplitLegendLine | backend/data_processing.py:74-76 | the stripped `C:` plus name splits into `C` and the name |
| LegendText.ClassifiedLine | backend/data_processing.py:70-100 | a non-blank line whose colour part parses yields that colour with its label |
| LegendText.SingleLineEntries | backend/data_processing.py:99-100 | a one-line text that parses yields that one entry |
| LegendText.DecimalColourParts | backend/data_processing.py:92 | `"r,g,b"` splits into the three rendered numbers |
| LegendText.DecimalPartsParse | backend/data_processing.py:92-97 | three comma parts that each parse yield the colour of their values |
| LegendText.NatToStringStripParses | backend/data_processing.py:95 | `int(str(n).strip())` is `n` within the 4300-digit limit |
| LegendText.LongChannelDropped | backend/data_processing.py:93-98 | a comma colour whose first part has more than 4300 decimal digits is dropped |
| LegendText.DecimalColourValues | backend/data_processing.py:91-97 | the comma form of a byte colour reads back as that colour |
| LegendText.ColourIsDecimal | backend/data_processing.py:84-91 | a colour part not starting with `#` is read in the comma form |
| LegendText.ColourIsHex | backend/data_processing.py:84-85 | `#` followed by six non-`#` characters is read in the hex form |
| LegendText.DecimalColourParses | backend/data_processing.py:81-97 | the rendered comma colour parses back to the colour |
| LegendText.HexColourValues | backend/data_processing.py:86-90 | the three hex chunks of `#RRGGBB` read back to the channels |
| LegendText.HexColourParses | backend/data_processing.py:81-90 | the rendered hex colour parses back to the colour |
| LegendText.DecimalLineRoundTrip | backend/data_processing.py:62-100 | for byte channels and a stripped label without breaks, `"r,g,b: label"` parses to exactly `[([r, g, b], label)]` |
| LegendText.HexLineRoundTrip | backend/data_processing.py:62-100 | for byte channels and such a label, `"#RRGGBB: label"` parses to exactly `[([r, g, b], label)]` |
| LegendText.NoColonEmptyLabel | backend/data_processing.py:77-79 | a line without a colon gets the empty label |
| LegendText.HexWrongLengthDropped | backend/data_processing.py:84-86 | a `#` colour whose length after the `#`s is not six is dropped, not an error |
| LegendText.ColourLabelOfLine | backend/data_processing.py:70-79 | splitting a stripped `C: L` at its first colon gives `C` and `L` |
| LegendText.ZzRejected | backend/data_processing.py:87 | Example: `int("zz", 16)` raises |
| LegendText.ZzColour | backend/data_processing.py:84-90 | Example: `#zzzzzz` fails on its first chunk |
| LegendText.HexGarbageRaises | backend/data_processing.py:84-90 | six non-hex characters raise ValueError out of the parser instead of being skipped |
| LegendText.InfoSeparatorColour | backend/data_processing.py:84-90 | Example: `#\x1fABCDE` fails on its first chunk `"\x1fA"` |
| LegendText.UnitSeparatorRaises | backend/data_processing.py:69-90 | Example: the line `#\x1fABCDE: x` raises ValueError out of the parser |
| LegendText.SplitThree | backend/data_processing.py:92 | three comma-free parts joined by commas split back into those parts |
| LegendText.Parse300 | backend/data_processing.py:95 | Example: `int("300")` is 300 |
| LegendText.ParseMinus5 | backend/data_processing.py:95 | Example: `int("-5")` is -5 |
| LegendText.Parse7 | backend/data_processing.py:95 | Example: `int("7")` is 7 |
| LegendText.CommaValuesUnchecked | backend/data_processing.py:92-97 | comma values are not range-checked: `300,-5,7` is kept as that colour |
| LegendText.CommaBadPartDropped | backend/data_processing.py:93-97 | a comma part that is not an integer drops the line |
| DataLegend.VirtualIndex | backend/data_processing.py:113-115 | numpy's linear-method virtual index `q * (m - 1)` lies in `[0, m - 1]` |
| DataLegend.LerpBetween | backend/data_processing.py:113-115 | interpolating between two ascending order statistics stays between them |
| DataLegend.LerpMonotone | backend/data_processing.py:113-115 | a larger interpolation weight never gives a smaller value |
| DataLegend.VirtualIndexMonotone | backend/data_processing.py:113-115 | a larger quantile never gives a smaller virtual index |
| DataLegend.QuantileBounds | backend/data_processing.py:113-115 | every quantile of an ascending sequence lies between its first and last element |
| DataLegend.QuantileZero | backend/data_processing.py:113-115 | the 0 quantile is the smallest element |
| DataLegend.QuantileMonotone | backend/data_processing.py:113-115 | quantiles are non-decreasing in `q` |
| DataLegend.BinFraction | backend/data_processing.py:110 | `np.linspace(0, 1, n + 1)[i]` is `i / n`, in `[0, 1]` and non-decreasing in `i` |
| DataLegend.BinValueBounds | backend/data_processing.py:117-120 | the truncated quantile of a bin lies between the channel's smallest and largest value |
| DataLegend.BinValueZero | backend/data_processing.py:117-120 | bin 0 is the smallest value of the channel |
| DataLegend.BinValueMonotone | backend/data_processing.py:117-120 | a later bin is never smaller on a channel |
| DataLegend.Bins | backend/data_processing.py:116-121 | the first `k` legend colours number `k` |
| DataLegend.BinsAt | backend/data_processing.py:116-121 | colour `i` has, on each channel, the truncated `i / n` quantile of that channel |
| DataLegend.LegendLoop | backend/data_processing.py:116-121 | the append loop produces exactly the `n` bin colours |
| DataLegend.GenerateDataDrivenLegend | backend/data_processing.py:104-123 | the method returns the legend function's value: empty without sampled colours, an error where `linspace` raises, else the bins |
| DataLegend.RgbLeg | backend/data_processing.py:125-126 | `rgb_leg` returns the same as `generate_data_driven_legend` |
| DataLegend.LegendCount | backend/data_processing.py:104-123 | the legend fails exactly when some colour was sampled and `n_bins < -1`; otherwise it has `n_bins` colours, or none when nothing was sampled or `n_bins < 0` |
| DataLegend.ChannelOfBin | backend/data_processing.py:113-121 | channel `ch` of bin `i` is the truncated `i / n` quantile of the sorted channel column |
| DataLegend.BinWithinRange | backend/data_processing.py:113-121 | each bin's channel lies between that channel's minimum and maximum over the sampled colours |
| DataLegend.FirstBinIsMin | backend/data_processing.py:113-121 | bin 0 is the per-channel minimum |
| DataLegend.BinsMonotone | backend/data_processing.py:113-121 | each channel is non-decreasing from bin to bin |
| DataLegend.BinsShape | backend/data_processing.py:113-121 | bin 0 is the minimum, channels are non-decreasing and within range, over the bins of non-empty samples |
| DataLegend.LegendShape | backend/data_processing.py:104-123 | for any returned legend: bin 0 is the channel minimum of the non-null colours, every channel is non-decreasing across bins and within that channel's `[min, max]` |
| ColorSampling.Foreground | backend/data_processing.py:600-602 | the non-background pixels are exactly those pixels that are not all `<= 5` or all `>= 250`, in order |
| ColorSampling.KeptPixels | backend/data_processing.py:600-604 | the averaged pixels are empty only when the mask's pixels are, and come from them |
| ColorSampling.SampleColour | backend/data_processing.py:571-611 | a county gets `[None, None, None]` exactly when it has no geometry, rasterisation fails or the mask is empty |
| ColorSampling.SampleRegions | backend/data_processing.py:565-612 | one result and one `avg_rgbs` entry per county in order: the county's sample, and `[0, 0, 0]` for an unsampled one |
| ColorSampling.ForegroundOnlyWhenPresent | backend/data_processing.py:600-604 | when some pixel is not background, only non-background pixels are averaged |
| ColorSampling.SumBounds | backend/data_processing.py:609 | a channel sum of `n` pixels lies between `n * lo` and `n * hi` |
| ColorSampling.QuotientBounds | backend/data_processing.py:609 | a mean of values in `[lo, hi]` lies in `[lo, hi]` |
| ColorSampling.MeanBetween | backend/data_processing.py:609-610 | the truncated mean of a channel lies between its minimum and maximum |
| ColorSampling.SampleWithinKept | backend/data_processing.py:599-611 | a sampled colour comes from a non-empty set of kept pixels and each channel lies within their range (the `pixels.size == 0` branch cannot be reached) |
| ColorSampling.ColumnOfBytes | backend/data_processing.py:598 | a column of byte pixels has its extremes in `[0, 255]` |
| ColorSampling.SampleIsByteColour | backend/data_processing.py:598-611 | a mask of byte pixels samples a byte colour |
| BinAssign.ArgMin | backend/data_processing.py:673 | the reported index is the first legend colour at minimal distance |
| BinAssign.FirstNearestUnique | backend/data_processing.py:673 | the first nearest index is unique |
| BinAssign.ArgMinIsFirstNearest | backend/data_processing.py:673 | an index is the first nearest exactly when it is the argmin |
| BinAssign.NearestIndices | backend/data_processing.py:673 | `pairwise_distances_argmin` gives, for each colour in order, its first nearest legend index |
| BinAssign.ValidColoursStep | backend/data_processing.py:671 | the non-null colours of one more county grow by that county's colour when it has one |
| BinAssign.ValidColoursPrefix | backend/data_processing.py:671 | the non-null colours split at any county |
| BinAssign.PairStep | backend/data_processing.py:674-679 | a sampled county `i` reads `bin_indices[result_idx]` where `result_idx` counts the sampled counties before it, and that is its nearest index |
| BinAssign.PairIndices | backend/data_processing.py:674-680 | walking `results` with `result_idx` gives each county exactly its own bin |
| BinAssign.AssignBins | backend/data_processing.py:671-683 | county `k` gets the first nearest legend index of its colour, or `None` when it is unsampled, the legend is empty or nobody was sampled |
| BinAssign.BinOfCases | backend/data_processing.py:671-683 | a county has a bin exactly when it was sampled and the legend is non-empty, and the bin names a legend colour |
| BinAssign.ExactColourBin | backend/data_processing.py:673 | a colour equal to a legend entry goes to the first such entry |
| LegendSelection.ClampSelection | backend/data_processing.py:137-146 | the clamped origin is inside the image, the crop fits, and it is no larger than requested |
| LegendSelection.ClampKeepsFitting | backend/data_processing.py:137-146 | a selection already inside the image is kept unchanged |
| LegendSelection.SliceBound | backend/data_processing.py:148 | a Python slice bound is normalised into `[0, len]` and kept when already there |
| LegendSelection.PySlice | backend/data_processing.py:148 | Python slicing with in-range bounds is the plain subsequence |
| LegendSelection.RowStartIsProduct | backend/data_processing.py:152 | the row offset by repeated addition is `r * w` |
| LegendSelection.RowStartBound | backend/data_processing.py:152 | a cell of row `r < n` comes before row `n` starts |
| LegendSelection.CropRowsAt | backend/data_processing.py:148-152 | pixel `r * width + col` of the crop is pixel `x + col` of row `r` |
| LegendSelection.CropRowsHead | backend/data_processing.py:148-152 | the first `width` crop pixels are the first row's |
| LegendSelection.CropRowsTail | backend/data_processing.py:148-152 | after the first row come the remaining rows' pixels |
| LegendSelection.CropRowsLength | backend/data_processing.py:148-152 | the crop has `height * width` pixels |
| LegendSelection.CropRowsOfImage | backend/data_processing.py:148-152 | the crop of an image is the crop of its selected rows, which are `height` rows each wide enough |
| LegendSelection.CropPixelsAt | backend/data_processing.py:148-152 | `img[y:y+h, x:x+w].reshape(-1, 3)` has `h * w` pixels, pixel `r * w + col` being image pixel `(y + r, x + col)` |
| LegendSelection.RowMajor | backend/data_processing.py:148-152 | the length and the row-major indexing of a crop together |
| LegendSelection.Dedup | backend/data_processing.py:155-167 | no more colours are kept than pixels |
| LegendSelection.UniqueColours | backend/data_processing.py:155-167 | the nested loop with its `break` keeps exactly the colours of the de-duplication function |
| LegendSelection.WrappedSqDist | backend/data_processing.py:161 | the uint8 distance as written never exceeds `3 * 255` |
| LegendSelection.InsertDesc | backend/data_processing.py:169-172 | inserting lengthens by one |
| LegendSelection.InsertDescSorted | backend/data_processing.py:169-172 | insertion keeps a sequence brightest first, the head being the brighter of the two |
| LegendSelection.InsertDescPerm | backend/data_processing.py:169-172 | insertion adds exactly one occurrence of the colour |
| LegendSelection.SortByLumaDesc | backend/data_processing.py:169-172 | the sort keeps the length |
| LegendSelection.SortByLumaSorted | backend/data_processing.py:169-172 | `sort(key=luminance, reverse=True)` leaves the colours brightest first |
| LegendSelection.SortByLumaPerm | backend/data_processing.py:169-172 | the sort is a permutation |
| LegendSelection.SortedTail | backend/data_processing.py:169-172 | a brightest-first sequence stays so without its head |
| LegendSelection.WithLumaCons | backend/data_processing.py:169-172 | the colours of one luminance in `[c] + t` are `c` (if its luminance matches) then those of `t` |
| LegendSelection.WithLumaInsert | backend/data_processing.py:169-172 | inserting a colour puts it before every colour of equal luminance already there |
| LegendSelection.SortStable | backend/data_processing.py:169-172 | the sort is stable: colours of equal luminance keep their relative order |
| LegendSelection.Levels | backend/data_processing.py:174-178 | one labelled entry per colour |
| LegendSelection.LevelsAt | backend/data_processing.py:174-178 | entry `i` is colour `i` labelled "Level i+1" |
| LegendSelection.LabelLevels | backend/data_processing.py:174-178 | the labelling loop produces exactly those entries |
| LegendSelection.ExtractLegendFromSelection | backend/data_processing.py:128-180 | the corrected function returns the selection legend with the integer distance: `None` for no selection, else the clamped, de-duplicated, sorted and labelled colours when there are at least two |
| LegendSelection.ExtractLegendAsWritten | backend/data_processing.py:128-180 | the function as written returns the selection legend with the wrapped uint8 distance |
| LegendSelection.WrappedKeepsAtMostOne | backend/data_processing.py:155-167 | with the wrapped distance at most one colour is kept, and it is the first pixel |
| LegendSelection.AsWrittenNeverReturnsLegend | backend/data_processing.py:128-180 | as written, the function returns `None` for every image and selection |
| LegendSelection.WrappedMergesBlackAndWhite | backend/data_processing.py:161 | black and white are 3 apart as written and 195075 apart on integers |
| LegendSelection.DedupKeepsFirst | backend/data_processing.py:155-167 | the first pixel is always kept, first |
| LegendSelection.DedupFromPixels | backend/data_processing.py:155-167 | every kept colour is one of the pixels |
| LegendSelection.DedupSpread | backend/data_processing.py:155-167 | kept colours are pairwise at squared distance `>= 900` (distance `>= 30`) |
| LegendSelection.CoveredExtend | backend/data_processing.py:155-167 | a pixel covered by the kept colours stays covered as more are kept |
| LegendSelection.CoveredLast | backend/data_processing.py:155-167 | the pixel just examined is covered after its step |
| LegendSelection.DedupCovers | backend/data_processing.py:155-167 | every pixel lies within distance 30 of some kept colour |
| LegendSelection.LegendShape | backend/data_processing.py:128-180 | `None` exactly when fewer than two colours were kept; otherwise entry `i` is the `i`-th kept colour in brightness order labelled "Level i+1" |
| LegendMeta.EntryColours | backend/data_processing.py:665 | `[rgb for rgb, _ in user_legend]`, position by position |
| LegendMeta.EntryNames | backend/data_processing.py:666 | `[label for _, label in user_legend]`, position by position |
| LegendMeta.BinLabels | backend/data_processing.py:669 | one "Bin" label per colour |
| LegendMeta.BinLabelsAt | backend/data_processing.py:669 | label `i` is "Bin i+1" |
| LegendMeta.ValueRanges | backend/data_processing.py:749-755 | range `i` of `n` is `[i/n, (i+1)/n]` with its label; ranges are non-empty, contiguous and cover `[0, 1]` |
| LegendMeta.FractionOrder | backend/data_processing.py:749-755 | `0 <= i/n < (i+1)/n <= 1` |
| LegendMeta.ChannelRangeBounds | backend/data_processing.py:741-744 | a channel's range over sampled colours is its minimum and maximum |
| LegendMeta.DataRangeDefault | backend/data_processing.py:745-747 | with no sampled county every channel's range is `[0, 255]` |
| LegendMeta.DataRangeChannel | backend/data_processing.py:741-747 | `data_range` of a channel is the channel range of the non-null colours |
| LegendMeta.DataRangeBounds | backend/data_processing.py:741-744 | each channel's range bounds that channel of every sampled colour |
| LegendMeta.DataRangeAttained | backend/data_processing.py:741-744 | both ends of each channel's range are attained by sampled colours |
| LegendMeta.Classify | backend/data_processing.py:658-683 | the classification fails exactly where the data-driven legend raises; otherwise the document's type, colours, labels, `n_bins`, value ranges and data range are those of the chosen legend, and every county gets its bin |
| LegendMeta.RgbsOf | backend/data_processing.py:658 | `all_rgb_values` is every county's sample in order |
| LegendMeta.UserLegendWins | backend/data_processing.py:664-666 | a user legend of two or more entries is used as is |
| LegendMeta.DataLegendLabels | backend/data_processing.py:667-669 | otherwise the data-driven colours are labelled "Bin 1", "Bin 2", ... |
| LegendMeta.KindMatchesChoice | backend/data_processing.py:760 | the document's type is user-defined exactly when the extracted legend is the one classification used |
| RegionFiles.PathJoin | backend/data_processing.py:27 | `os.path.join`: an absolute second part replaces the first; otherwise one `/` is inserted after a directory not ending in `/` |
| RegionFiles.LayerNameInjective | backend/data_processing.py:26 | a layer name `cb_2024_us_county_500k_{region}_epsg{projection}` determines the region and a four-character projection |
| RegionFiles.ShapefilePathLayout | backend/data_processing.py:24-27 | under a plain base directory, a region's shapefile is `base/name/name.shp` |
| RegionFiles.ShapefilePathsDistinct | backend/data_processing.py:24-27 | two (region, projection) pairs with EPSG codes never share a shapefile path |
| RegionFiles.NestedNameInjective | backend/data_processing.py:27 | two equally long names nested as `base/n/n.shp` give the same path only when equal |
| RegionFiles.SelectionBox | backend/data_processing.py:444-449 | `(int(x), int(y), int(x + w), int(y + h))` is ordered on each axis for a non-negative extent |
| RegionFiles.TruncGap | backend/data_processing.py:444-449 | the truncated box's extent differs from the selection's by less than 2 |
| RegionFiles.RefineGate | backend/data_processing.py:464 | edge refinement always runs for a selection at least 52 pixels each way and never for one under 49 pixels in either direction |
| ConusFilter.NormaliseGeoids | create_conus_shapefile.py:33-35 | one GEOID per row: the column's value, or the row index when the column is missing, zero-padded to at least 5 characters |
| ConusFilter.Keep | create_conus_shapefile.py:43 | the boolean-mask selection keeps exactly the rows satisfying the mask |
| ConusFilter.KeepIsSubsequence | create_conus_shapefile.py:43 | the selection is an order-preserving subsequence |
| ConusFilter.KeepCount | create_conus_shapefile.py:43-46 | the rows a mask keeps and the rows its negation keeps add up to all rows |
| ConusFilter.KeepIdempotent | create_conus_shapefile.py:43 | filtering twice equals filtering once |
| ConusFilter.ConusMembership | create_conus_shapefile.py:42-43 | a county is in the output exactly when it is in the input and its GEOID starts with none of 02, 15, 60, 66, 69, 72, 78 |
| ConusFilter.ConusCounts | create_conus_shapefile.py:43-46 | the output is an order-preserving subset of the input and kept plus filtered is the total |
| ConusFilter.ConusIdempotent | create_conus_shapefile.py:42-43 | applying the filter to its own output changes nothing |
| ConusFilter.IsConusByStateCode | create_conus_shapefile.py:42-43 | a GEOID is excluded exactly when its first two characters are one of the seven codes |
| ConusFilter.ConusExamples | create_conus_shapefile.py:42-43 | Example: "12001" is kept and "02013" is not |
| ConusFilter.StartsWithAnyConcat | create_conus_shapefile.py:42-43 | a string starts with one of two joined prefix lists exactly when it starts with one of either |
| ConusFilter.KeepThenKeep | create_projected_shapefiles.py:69 | two mask selections in a row are the selection by both masks |
| ConusFilter.ConusInStages | create_projected_shapefiles.py:69 | the contiguous-US counties are the counties of `create_projected_shapefiles.py`'s territory filter (60, 66, 69, 72, 78) with `visualize_shapefile.py`'s Alaska and Hawaii filter (02, 15) applied after, in the same order |
| ConusFilter.StageExamples | visualize_shapefile.py:45 | Example: "72001" is dropped by the territory filter and kept by the Alaska and Hawaii one; "02013" the other way round |
| RegionPartition.TwoCodes | create_separate_region_shapefiles.py:31-33 | no GEOID starts with two different two-character codes |
| RegionPartition.ExactlyOneRegion | create_separate_region_shapefiles.py:31-33 | every county is in exactly one of CONUS, Alaska, Hawaii and the territories |
| RegionPartition.PartitionCount | create_separate_region_shapefiles.py:31-33 | the three regions and the territory rows together number all input rows |
| RegionPartition.RegionRowsMeaning | create_separate_region_shapefiles.py:31-33 | a region's rows are exactly the input rows of that region, in input order |
| RegionPartition.RegionExamples | create_separate_region_shapefiles.py:31-33 | Example: Alaska is prefix "02", Hawaii "15", both outside CONUS; "72001" is a territory |
| RegionPartition.Paths | create_separate_region_shapefiles.py:72-79 | one path per written layer, each the layer's output file |
| RegionPartition.LayersForStep | create_separate_region_shapefiles.py:61-70 | the layers of one more region are those before plus that region's |
| RegionPartition.WriteProjections | create_separate_region_shapefiles.py:70-80 | the projection loop writes the 4326 file then the 5070 file of a region |
| RegionPartition.PathsAppend | create_separate_region_shapefiles.py:61-80 | the paths of two runs of layers concatenate |
| RegionPartition.WriteRegionShapefiles | create_separate_region_shapefiles.py:61-83 | the region and projection loops write exactly the paths of the non-empty regions' layers, in order |
| RegionPartition.OutputMatchesBackend | create_separate_region_shapefiles.py:72-79 | the file the script writes for a region and projection is the path `_get_region_shapefile_path` reads |
| RegionPartition.RegionNameInjective | create_separate_region_shapefiles.py:46-50 | distinct regions have distinct names |
| RegionPartition.OutputFileInjective | create_separate_region_shapefiles.py:72-79 | two output files coincide only for the same region and projection |
| RegionPartition.ProjectionsAreCodes | create_separate_region_shapefiles.py:52-55 | both projection keys are four-digit EPSG codes |
| RegionPartition.LayersOfThree | create_separate_region_shapefiles.py:61-64 | the layers are listed region by region, in dictionary order |
| RegionPartition.LayerWrittenIff | create_separate_region_shapefiles.py:61-64 | a region's layer in a projection is written exactly when the region has a county |
| RegionPartition.PathOfLayer | create_separate_region_shapefiles.py:72-79 | a layer's path is among the written paths exactly when that layer was written |
| RegionPartition.WrittenIff | create_separate_region_shapefiles.py:61-80 | a region's shapefile is written exactly when the region has a county |
| RegionPartition.LayersInProjections | create_separate_region_shapefiles.py:70 | every written layer uses one of the two projections |
| PanelDetect.KernelSize | backend/utils/panel_detect.py:40-42 | `_smooth`'s kernel `max(3, int(k) \| 1)` is odd and at least 3, and is `k` or `k + 1` for `k >= 3` |
| PanelDetect.ProfileKernel | backend/utils/panel_detect.py:68 | the profile kernel is odd and at least 15 |
| PanelDetect.Gradient | backend/utils/panel_detect.py:70 | `np.gradient` has one entry per column |
| PanelDetect.RankIn | backend/utils/panel_detect.py:73 | the number of positions of a range sorting before `x` is at most the range's size |
| PanelDetect.FirstCut | backend/utils/panel_detect.py:75-81 | a column found from `x` on is a candidate with a low-ink gap to its right |
| PanelDetect.RightStartInside | backend/utils/panel_detect.py:72-83 | for an image two or more columns wide, both the search start and the fallback cut lie strictly inside the image |
| PanelDetect.FirstCutIsSmallest | backend/utils/panel_detect.py:75-81 | no column between the start and the one found is a candidate with a gap; with none found, no column is |
| PanelDetect.CutXMeaning | backend/utils/panel_detect.py:66-83 | `cut_x` is either the smallest of the ten most negative gradients at or past `0.60 * W` with `right_mean < 0.6 * left_mean`, or `int(0.92 * W)` when no candidate qualifies; it lies strictly inside the image |
| PanelDetect.SteepestIsCandidate | backend/utils/panel_detect.py:73 | the most negative gradient of the right part is always among the candidates |
| PanelDetect.RankZero | backend/utils/panel_detect.py:73 | nothing sorts before the strict minimum |
| PanelDetect.CountBefore | backend/utils/panel_detect.py:73 | the counting loop computes a column's rank in the stable argsort |
| PanelDetect.FindCutX | backend/utils/panel_detect.py:70-83 | the scan over sorted candidates with its `break` returns `cut_x` |
| PanelDetect.FirstInkRow | backend/utils/panel_detect.py:96-99 | a row found in `[i, n)` carries more ink than the threshold |
| PanelDetect.FirstInkRowIsFirst | backend/utils/panel_detect.py:96-99 | no earlier scanned row carries ink; with none found, no scanned row does |
| PanelDetect.TopYMeaning | backend/utils/panel_detect.py:94-101 | `top_y` is at most `Hw - 2` and at most six below the first inked row among the first `min(Hw - 1, int(0.25 * H))` (row 0 if none), and no earlier scanned row is inked |
| PanelDetect.FindTopY | backend/utils/panel_detect.py:95-101 | the scan with its `break` returns that `top_y` |
| PanelDetect.Rectangularity | backend/utils/panel_detect.py:25-31 | a contour of non-positive area scores 0, one of positive area scores above 0 |
| PanelDetect.Candidates | backend/utils/panel_detect.py:117-141 | no more candidates than contours |
| PanelDetect.CandidatesAdmitted | backend/utils/panel_detect.py:117-141 | every candidate comes from a contour of area at least 10% of the working area and aspect in `[1.15, 2.5]`, shifted down by `top_y`, and every such contour gives one |
| PanelDetect.ScoreBounds | backend/utils/panel_detect.py:127-132 | the centre score lies in `[0, 1]`, so the score lies between `0.65 * rect` and `0.65 * rect + 0.35` and is never negative |
| PanelDetect.CollectCandidates | backend/utils/panel_detect.py:117-141 | the contour loop with its two `continue`s collects exactly those candidates |
| PanelDetect.BestIndex | backend/utils/panel_detect.py:156 | the winner is a candidate index |
| PanelDetect.BestIndexIsFirstMax | backend/utils/panel_detect.py:156 | the winner scores at least as much as every candidate and strictly more than every earlier one (the first maximum) |
| PanelDetect.InkLeftOf | backend/utils/panel_detect.py:145 | the inked pixels left of the cut are exactly the input's inked pixels with `x < cut_x` |
| PanelDetect.DetectMapPanelLikeScreenshot | backend/utils/panel_detect.py:47-167 | the detector returns the specification's panel: the cut, the top, the candidates, the first best one finished, or the ink fallback |
| PanelDetect.PanelShape | backend/utils/panel_detect.py:143-167 | every result's polygon is the rectangle of its box, its left and top are never negative, and its confidence lies in `[0, 1]` |
| PanelDetect.WinnerShape | backend/utils/panel_detect.py:156-167 | the finished winner is a clean rectangle with a confidence in `[0, 1]` |
| PanelDetect.FallbackShape | backend/utils/panel_detect.py:143-154 | with no ink left of the cut the result is `[0, 0, W-1, H-1]` at 0.25; otherwise it is at 0.45 and its box spans every inked pixel left of the cut horizontally and reaches below each of them |
| PanelDetect.Round3Bounds | backend/utils/panel_detect.py:167 | rounding to three places keeps `[0, 1]` and moves a value by at most 0.0005 |
| PanelDetect.FinishClamps | backend/utils/panel_detect.py:158-163 | the inset is at least 2; the right and bottom move in by it; the left and top are clamped to `max(0, min(edge + inset, far - 2))` |
| PanelDetect.InsetExamples | backend/utils/panel_detect.py:160 | Example: the inset is 2 at 749 pixels, 4 at 1000 and 5 at 1250 |
| PanelDetect.DetectPanelBounds | backend/utils/panel_detect.py:181-204 | one canvas named "CONUS" with the detector's box, polygon and confidence and no rect4; the image size is the image's, or the box's far corner when it cannot be read |
| Geometry.TransformCoordsShape | backend/utils/homography.py:87-119 | mapping the coordinates keeps a geometry's structure (type, ring and part counts, lengths) and maps every coordinate in order |
| Geometry.TransformCoordsIdentity | backend/utils/homography.py:87-119 | mapping the identity changes nothing |
| Geometry.TransformCoordsCompose | backend/utils/homography.py:87-119 | mapping one function and then another is mapping their composition |
| Geometry.MapGeometryCases | backend/utils/homography.py:91-130 | empty geometries pass unchanged; typed geometries are mapped in place; the fallback turns one coordinate into a point, two into a line and more into a polygon |
| Geometry.TransformFrame | backend/utils/homography.py:274-277 | the copied frame has the same rows, attributes and CRS, with every geometry mapped |
| Geometry.ShapelyMapFrame | backend/utils/homography.py:274-277 | `gdf.geometry.apply` of a shapely map raises exactly when some row has no geometry; otherwise every row keeps its attributes and has its geometry mapped, and the CRS is kept |
| Homography.RectBoundsToCorners | backend/utils/homography.py:13-42 | four corners |
| Homography.CornersClockwise | backend/utils/homography.py:13-42 | the geographic corners are the pixel corners of the box flipped vertically; consecutive corners share an edge; the pixel corners turn one way and the geographic corners the other, each enclosing twice the box's area |
| Homography.AffinePreservesLerp | backend/utils/homography.py:80-84 | an affine map sends each point of a segment to the same fraction along the image segment |
| Homography.AffineIdentity | backend/utils/homography.py:80-84 | the identity affine map fixes every point |
| Homography.BuildAffineSystem | backend/utils/homography.py:62-67 | the loop builds two rows and two right-hand sides per correspondence |
| Homography.AffineRowsExact | backend/utils/homography.py:64-67 | a parameter vector satisfies a correspondence's two equations exactly when its affine map sends the source point to the target |
| Homography.ApplyH | backend/utils/homography.py:165-174 | the projective image is undefined exactly where the third coordinate `w` is zero |
| Homography.ApplyHValue | backend/utils/homography.py:172-174 | elsewhere it is `(w[0] / w[2], w[1] / w[2])` |
| Homography.ApplyHIdentity | backend/utils/homography.py:165-174 | the identity matrix fixes every point |
| Homography.ApplyHScale | backend/utils/homography.py:162-174 | a homography is defined up to scale: any non-zero multiple maps every point the same |
| Homography.ApplyHAffine | backend/utils/homography.py:165-174 | a matrix with last row `[0, 0, 1]` acts as the affine map of its first two rows |
| Homography.NormaliseH | backend/utils/homography.py:162 | dividing by `H[2, 2]` fails exactly when it is zero and otherwise leaves 1 there |
| Homography.NormaliseHPreservesMap | backend/utils/homography.py:162 | normalising never changes the map |
| Homography.DltRowsExact | backend/utils/homography.py:144-149 | a matrix annihilates a correspondence's two rows exactly when it sends the source point to the target |
| Homography.DltSystem | backend/utils/homography.py:151-155 | every row of the system has nine entries |
| Homography.BuildDltSystem | backend/utils/homography.py:152-155 | the loop builds that system |
| Homography.DltSystemRows | backend/utils/homography.py:151-155 | rows `2k` and `2k + 1` belong to correspondence `k` |
| Homography.HomographyFitsCorners | backend/utils/homography.py:157-162 | an exact null vector of the system with `H[2, 2] != 0`, once normalised, sends every source corner to its target |
| Homography.ExactHomographyIsNullVector | backend/utils/homography.py:151-159 | conversely a matrix sending every source corner to its target is a null vector of the system |
| Homography.ApplyHomographyToGeometry | backend/utils/homography.py:177-227 | transforming a geometry succeeds exactly when every coordinate has a finite image |
| Homography.AffineGeometryShape | backend/utils/homography.py:87-119 | the affine map keeps a typed geometry's structure and maps every coordinate |
| Homography.HomographyGeometryShape | backend/utils/homography.py:177-218 | the projective map keeps a typed geometry's structure, and every coordinate is the projective image of the original |
| Homography.GeometryMapsPassEmpty | backend/utils/homography.py:91-92 | `None` and empty geometries pass through both maps unchanged |
| Homography.GdfAffine | backend/utils/homography.py:250-251 | the anchored map exists exactly when rect4 has at least three corners |
| Homography.TransformGdfWithHomography | backend/utils/homography.py:249-281 | the transform succeeds exactly when rect4 has three corners or more and no row lacks a geometry (`affine_transform(None, ...)` raises); then every row keeps its attributes and has its geometry mapped, and the CRS is dropped |
| Homography.AnchoredAffineCorners | backend/utils/homography.py:250-270 | for a box with area, the map sends its top-left `(xmin, ymax)` to `rect4[0]` and its bottom-right `(xmax, ymin)` to `rect4[2]` |
| Homography.GdfAffineAnchors | backend/utils/homography.py:250-270 | the same for rect4's first and third corners |
| Homography.GdfAffineIgnoresOtherCorners | backend/utils/homography.py:250-251 | `rect4[1]` and `rect4[3]` are never read |
| Homography.GdfAffineDegenerate | backend/utils/homography.py:261-270 | a source box without width sends every x to `rect4[0]`'s x, one without height every y to `rect4[2]`'s y |
| GeoTransform.RectBoundsToCorners | backend/utils/geo_transform.py:9-17 | four corners |
| GeoTransform.CornersArePixelMode | backend/utils/geo_transform.py:9-17 | the corners are homography.py's pixel-mode corners |
| GeoTransform.StackedRows | backend/utils/geo_transform.py:26 | two rows per pair of `zip(src4, dst4)` |
| GeoTransform.StackedRowsAgree | backend/utils/geo_transform.py:20-30 | the stacked system is row for row the one homography.py builds |
| GeoTransform.ApplyH | backend/utils/geo_transform.py:33-37 | the projective image is undefined exactly where `w` is zero |
| GeoTransform.ApplyHAgrees | backend/utils/geo_transform.py:33-37 | it is homography.py's projective division, so the identity fixes every point |
| GeoTransform.RegionPairing | backend/utils/geo_transform.py:53-74 | the region homography pairs `(xmin, ymin)` with `rect4[0]` and `(xmax, ymax)` with `rect4[2]`, unlike homography.py's geographic corners whenever the bounds have height |
| GeoTransform.TransformGeometryWithHomography | backend/utils/geo_transform.py:33-44 | the intended per-coordinate transform succeeds exactly when the geometry is present and every coordinate has a finite image |
| GeoTransform.TransformGeodataframeWithHomography | backend/utils/geo_transform.py:77-80 | exactly when every row has a geometry and every geometry transforms, each row keeps its attributes with its geometry transformed, and the CRS is dropped |
| GeoTransform.TransformGeometryShape | backend/utils/geo_transform.py:40-44 | a transformed geometry keeps its structure, rings included, and each coordinate is the projective image of the original |
| GeoTransform.TransformGeometryAsWritten | backend/utils/geo_transform.py:33-44 | as written, the transform returns only a geometry without coordinates, unchanged; every other geometry, and a missing one, raises |
| GeoTransform.TransformGeodataframeAsWritten | backend/utils/geo_transform.py:77-80 | as written, the frame comes back, with its CRS dropped, exactly when no row has a coordinate or lacks a geometry |
| GeoTransform.IdentityFixesPoint | backend/utils/geo_transform.py:33-44 | the intended transform under the identity returns every point as it is |
| GeoTransform.PointRaises | backend/utils/geo_transform.py:35-44 | as written, every point raises, alone or as a row of a frame |
| GeoTransform.RaggedArrayRaises | backend/utils/geo_transform.py:35-44 | Example: `Point(1, 2)` under the identity raises as written, while the intended transform returns it unchanged |
| Tps.Validate | backend/utils/tps.py:32-46 | validation passes exactly when both arrays are N×2 of one length N ≥ 3 with only finite entries |
| Tps.ValidationOrder | backend/utils/tps.py:32-46 | each error is reported exactly when every earlier check passed and its own fails: source shape, target shape, length mismatch, fewer than three points, non-finite source, non-finite target |
| Tps.TpsTransformFromPoints | backend/utils/tps.py:17-115 | the builder fails exactly when validation fails (with validation's error) or when both the thin-plate fit and the unguarded cubic fallback fail (`FitFailed`); otherwise it uses the thin-plate fit exactly when that fit succeeded, else the cubic one |
| Tps.AxesIndependent | backend/utils/tps.py:79-84 | the transform's x comes from the x interpolator alone and its y from the y interpolator alone |
| Tps.TpsGeometryShape | backend/utils/tps.py:123-173 | empty geometries pass unchanged; a typed geometry keeps its structure and has every coordinate mapped |
| Tps.VerifyTpsAccuracy | backend/utils/tps.py:176-189 | the loop returns the largest point error over the pairs of `zip(src, dst)` |
| Tps.MaxErrorIsMaximum | backend/utils/tps.py:176-189 | the reported error is non-negative, at least every pair's error, zero with no pairs, and attained by some pair otherwise |
| Tps.ExactFitHasNoError | backend/utils/tps.py:176-189 | a transform interpolating every pair reports no error |
| GeoAlign.BboxFit | backend/utils/geo_align.py:24-62 | both scales are positive, and equal when the aspect is kept |
| GeoAlign.FitFillsBox | backend/utils/geo_align.py:55-62 | without `keep_aspect` the source box's left, right, top and bottom edges land on the inset box's edges, with y flipped |
| GeoAlign.BboxFitIsAspectFit | backend/utils/geo_align.py:30-53 | with `keep_aspect` the fit is the centred one on the target size (at least one pixel) and the source extents (at least the minimum extent) |
| GeoAlign.BothScalesFit | backend/utils/geo_align.py:40-41 | the smaller fill scale is positive and fits the source in both directions |
| GeoAlign.FitKeepsAspectInside | backend/utils/geo_align.py:38-53 | with `keep_aspect` every point of the source box lands inside the target box |
| GeoAlign.FitKeepsAspectCentre | backend/utils/geo_align.py:38-53 | with `keep_aspect` the source centre lands on the target centre, and a higher y lands higher in the image |
| GeoAlign.FitFrameShape | backend/utils/geo_align.py:64-77 | the fit raises exactly when some row has no geometry (`scale(None, ...)`); otherwise the fitted frame keeps every row's attributes and structure, has a geometry in every row and maps every coordinate by the fit |
| GeoAlign.HolePointsAreCoords | backend/utils/geo_align.py:97-101 | every hole point comes from a hole |
| GeoAlign.SampleIndex | backend/utils/geo_align.py:106-108 | each sampled index is inside the point array |
| GeoAlign.Subsample | backend/utils/geo_align.py:106-108 | sampling keeps exactly `n_points` points |
| GeoAlign.SampleIndexEnds | backend/utils/geo_align.py:107 | the samples start at the first point and, with two or more, end at the last |
| GeoAlign.SampleIndexIncreases | backend/utils/geo_align.py:107 | sampled indices strictly increase when fewer points are asked than there are |
| GeoAlign.SampleShape | backend/utils/geo_align.py:106-110 | a falsy or large `n_points` returns the points unchanged; otherwise exactly `n_points` points from the first to the last |
| GeoAlign.AppendPolygon | backend/utils/geo_align.py:92-101 | one polygon's loop appends its shell, then every hole of three points or more, or nothing when the shell is short |
| GeoAlign.AppendPolygons | backend/utils/geo_align.py:88-101 | the loop over a geometry's polygons appends the edge points of each, in order |
| GeoAlign.AppendGeometry | backend/utils/geo_align.py:86-101 | one geometry's loop appends the edge points of each of its polygons |
| GeoAlign.ExtractShapefileEdgePoints | backend/utils/geo_align.py:80-110 | the loop fails, as line 89 raises, exactly when some non-empty geometry is neither a Polygon nor a MultiPolygon; otherwise it returns the edge points of every polygon in order, sampled as line 106 says |
| GeoAlign.Geoms | backend/utils/geo_align.py:86 | the geometry column holds one geometry per row |
| GeoAlign.CountTrue | backend/utils/geo_align.py:713 | a mask's count is at most its length |
| GeoAlign.CountBothBound | backend/utils/geo_align.py:712-713 | the overlap never exceeds the rasterised outline, and equals it exactly when every outline pixel is an edge pixel |
| GeoAlign.EdgeOverlapScore | backend/utils/geo_align.py:647-714 | the score lies in `[0, 1]`, and is 0 when the image cannot be read or no outline was drawn |
| GeoAlign.FrameOverlapScore | backend/utils/geo_align.py:697-714 | scoring a frame raises exactly when the image was read and some geometry is neither missing, empty, a Polygon nor a MultiPolygon (it has no `exterior`); otherwise it is the overlap score, in `[0, 1]` |
| GeoAlign.PerfectOverlap | backend/utils/geo_align.py:711-714 | the score is 1 exactly when the image was read, an outline was drawn and every outline pixel is an edge pixel |
| GeoAlign.ClipFrame | backend/utils/geo_align.py:743-744 | clipping keeps one row per row |
| GeoAlign.CandidateFrames | backend/utils/geo_align.py:731-745 | one clipped frame per inset candidate, in order |
| GeoAlign.AutoBest | backend/utils/geo_align.py:728-752 | the winner is among the candidates looked at |
| GeoAlign.TryCandidate | backend/utils/geo_align.py:731-750 | one candidate raises exactly when its fit or its score raises; otherwise it is scored exactly when its clipped frame has rows, with that frame's score |
| GeoAlign.CandidateStep | backend/utils/geo_align.py:730-751 | one turn of the loop raises exactly when its candidate does, and otherwise moves the best so far over one more candidate |
| GeoAlign.BestCandidate | backend/utils/geo_align.py:728-752 | the scoring loop raises exactly when some candidate's fit or score raises; otherwise it keeps the best scored candidate |
| GeoAlign.FitWithAutoinset | backend/utils/geo_align.py:717-769 | the method returns what the specification of `fit_with_autoinset` gives |
| GeoAlign.AutoBestNone | backend/utils/geo_align.py:729-752 | nothing is chosen exactly when no candidate's clipped frame has rows, and then the score stays -1 |
| GeoAlign.AutoBestScored | backend/utils/geo_align.py:750-752 | a chosen candidate was scored and carries its own score |
| GeoAlign.AutoBestIsMax | backend/utils/geo_align.py:751-752 | no scored candidate beats the chosen one |
| GeoAlign.AutoBestIsFirst | backend/utils/geo_align.py:751 | every scored candidate before the chosen one scores strictly less (the first maximum wins) |
| GeoAlign.AutoinsetChoice | backend/utils/geo_align.py:717-769 | an answer exists exactly when there are candidates and neither a fit (a row without a geometry) nor a score (a scored non-polygonal geometry) raises; with a scored candidate it is the first best-scoring one with its score and inset; with none it is the middle candidate at score 0 |
| AlignSearch.Valid | backend/utils/geo_align.py:409 | the kept distances are the ones below the tolerance, never more than there were |
| AlignSearch.Evaluate | backend/utils/geo_align.py:407-415 | a candidate is scored exactly when more than `threshold` of the sample matches; then its match count and ratio are those of the distances below the tolerance |
| AlignSearch.EvaluateBounds | backend/utils/geo_align.py:412-415 | a scored candidate's ratio lies in `(0, 1]` and its combined score in `[0, 10 * tol)` |
| AlignSearch.CombinedBounds | backend/utils/geo_align.py:413-415 | the mean of the matches over the ratio plus 0.1 stays below ten times the tolerance |
| AlignSearch.CandidateIdentity | backend/utils/geo_align.py:394-404 | the candidate with no rotation, unit scales and no shift leaves every point alone |
| AlignSearch.RotationIsCandidate | backend/utils/geo_align.py:394-397 | a rotation is the candidate with unit scales and no shift |
| AlignSearch.Distances | backend/utils/geo_align.py:407 | one nearest-edge distance per sample point, in order |
| AlignSearch.EvalAll | backend/utils/geo_align.py:355-464 | one evaluation per candidate, in order |
| AlignSearch.Linspace | backend/utils/geo_align.py:329-346 | `np.linspace(lo, hi, n)` has `n` values |
| AlignSearch.LinspaceEnds | backend/utils/geo_align.py:329-346 | with two or more values it starts at `lo` and ends at `hi` |
| AlignSearch.GridSizes | backend/utils/geo_align.py:329-346 | the coarse grid has `361 * 15^4` candidates for Alaska and Hawaii and `73 * 11^4` otherwise; the fine grid `7^5` and `5^5` |
| AlignSearch.DxLoopAt | backend/utils/geo_align.py:383-386 | the `dy` loop is innermost: candidate `i * len(dys) + j` of the `dx` loop is `(dxs[i], dys[j])` |
| AlignSearch.SyLoopAt | backend/utils/geo_align.py:380-383 | block `i` of the `sy` loop, of `len(dxs) * len(dys)` candidates, is the `dx` loop at `sys[i]` |
| AlignSearch.SxLoopAt | backend/utils/geo_align.py:377-380 | block `i` of the `sx` loop is the `sy` loop at `sxs[i]` |
| AlignSearch.AngleLoopAt | backend/utils/geo_align.py:360-377 | block `i` of the grid is the `sx` loop at `angles[i]`: the angle varies slowest |
| AlignSearch.ShouldAcceptIsImprovement | backend/utils/geo_align.py:417-421 | the three-way acceptance test accepts exactly the candidates scoring strictly below the held score |
| AlignSearch.CoarseRun | backend/utils/geo_align.py:355-464 | the coarse best is one of the candidates walked |
| AlignSearch.CoarseStopped | backend/utils/geo_align.py:455-463 | once the walk has stopped nothing changes |
| AlignSearch.CoarseSearch | backend/utils/geo_align.py:355-464 | the nested loops with their shared `early_exit` compute the coarse walk |
| AlignSearch.CoarseRunStep | backend/utils/geo_align.py:407-455 | each unstopped candidate takes one step of the walk |
| AlignSearch.CoarseFinished | backend/utils/geo_align.py:362-463 | a walk that stopped early ends where it stopped |
| AlignSearch.CoarseBestFacts | backend/utils/geo_align.py:417-455 | a best is held exactly when a score is; it is a scored candidate carrying its own combined score; a stop happens only with a best below the perfect threshold |
| AlignSearch.CoarseMonotone | backend/utils/geo_align.py:424-425 | the held score never rises |
| AlignSearch.CoarseIsMinimum | backend/utils/geo_align.py:417-425 | the held score is at most every candidate scored before the stop |
| AlignSearch.CoarseSettled | backend/utils/geo_align.py:424-455 | after its best the walk changes nothing more |
| AlignSearch.CoarseIsFirstMinimum | backend/utils/geo_align.py:417-425 | every scored candidate before the best scores strictly more (the first minimum wins) |
| AlignSearch.MinRun | backend/utils/geo_align.py:498-545 | the pick is one of the candidates walked |
| AlignSearch.MinRunFacts | backend/utils/geo_align.py:531-533 | with no pick the score stays at its start; a pick is scored, carries its own score and is below the start |
| AlignSearch.MinRunIsMinimum | backend/utils/geo_align.py:531-533 | the held score is at most every scored candidate |
| AlignSearch.MinRunNone | backend/utils/geo_align.py:531-533 | nothing is picked exactly when no scored candidate is below the start |
| AlignSearch.MinRunIsFirst | backend/utils/geo_align.py:531-533 | every scored candidate before the pick scores strictly more |
| AlignSearch.Combined | backend/utils/geo_align.py:526-530 | a candidate has a combined score exactly when it was scored, and it is that evaluation's combined score |
| AlignSearch.FineSearch | backend/utils/geo_align.py:498-545 | the fine loops keep the first strictly better candidate of the fine grid |
| AlignSearch.CombinedScore | backend/utils/geo_align.py:502-530 | one fine candidate's combined score |
| AlignSearch.CombinedAt | backend/utils/geo_align.py:502-530 | it is the candidate's evaluation's combined score, if any |
| AlignSearch.FallbackRun | backend/utils/geo_align.py:578-597 | the held fallback angle is one of those tried |
| AlignSearch.FallbackFacts | backend/utils/geo_align.py:578-597 | with nothing held the score stays at the baseline and no rotation scored below 1.2 times it; a held rotation carries its own score |
| AlignSearch.FallbackKeepsLastWithinSlack | backend/utils/geo_align.py:593-596 | a worse rotation within 20% replaces a better one: scores 10 then 11 from 10 keep the second |
| AlignRefine.TransformKeepsRings | backend/utils/geo_align.py:394-404 | transforming a polygonal geometry keeps it polygonal |
| AlignRefine.CandidateFrame | backend/utils/geo_align.py:426-436 | applying a candidate keeps the rows, their attributes, the CRS and the polygons |
| AlignRefine.RotateFrame | backend/utils/geo_align.py:579-581 | rotating keeps the rows, their attributes, the CRS and the polygons |
| AlignRefine.RotationScores | backend/utils/geo_align.py:579-591 | one score per rotation angle tried |
| AlignRefine.FineStageImproves | backend/utils/geo_align.py:475-571 | the fine stage keeps the coarse best; a fine pick happens only below the gate, scores strictly below the coarse score and at most every scored fine candidate; with no pick below the gate no fine candidate beats the coarse score |
| AlignRefine.FineRunFacts | backend/utils/geo_align.py:498-545 | the fine walk's pick is a strictly improving minimum of the fine grid, and with none nothing improves |
| AlignRefine.ScoreRotation | backend/utils/geo_align.py:579-591 | one rotation's score |
| AlignRefine.FallbackSearch | backend/utils/geo_align.py:578-597 | the fallback loop over the angles with 500 samples, tolerance 50 and threshold 0.03 |
| AlignRefine.ForcedSearch | backend/utils/geo_align.py:612-626 | the forced loop keeps the strict minimum over the forced angles |
| AlignRefine.BaselineScore | backend/utils/geo_align.py:276-291 | the baseline score of the unrotated frame |
| AlignRefine.RunFineStage | backend/utils/geo_align.py:475-571 | the fine stage as specified |
| AlignRefine.RunFallbackStages | backend/utils/geo_align.py:574-644 | the fallback stages as specified |
| AlignRefine.RefineAlignmentWithEdgeMatching | backend/utils/geo_align.py:230-644 | as written, the method raises exactly when the edge extraction does (a geometry without rings), when a row without a geometry meets the first whole-frame transform past the early returns (lines 428-431, 582-583 or 620-621), or when every stage failed (the format specification at line 642); otherwise it returns what the specification of `refine_alignment_with_edge_matching` gives |
| AlignRefine.FrameEdgeSample | backend/utils/geo_align.py:80-110 | on a frame whose geometries all have rings, the extraction returns the frame's edge sample |
| AlignRefine.RefineOrKeep | backend/data_processing.py:409-418 | the caller's `try`/`except`: the frame keeps its rows; a raising refinement (no rings, or a row without a geometry past the early returns) leaves it unchanged, otherwise it is the refined frame, so the callers see the intended result, line 642's raise included |
| AlignRefine.RefineKeepsRows | backend/utils/geo_align.py:230-644 | refinement keeps the rows, their attributes and the CRS |
| AlignRefine.FineStageKeepsRows | backend/utils/geo_align.py:475-571 | the fine stage keeps the rows |
| AlignRefine.ForcedKeepsRows | backend/utils/geo_align.py:603-644 | the forced stage keeps the rows |
| AlignRefine.FallbackKeepsRows | backend/utils/geo_align.py:574-644 | the fallback stages keep the rows |
| AlignRefine.RefineEarlyReturns | backend/utils/geo_align.py:251-262 | without shapefile edges or image edges the frame comes back unchanged with that outcome; the intended unaligned result of line 644 is the input frame, and as written the code raises exactly there or on a row without a geometry past the early returns, so no unaligned result comes back |
| AlignRefine.NoMatchUnaligned | backend/utils/geo_align.py:276-644 | when every image edge is 100 pixels or more from every transformed point, no stage scores: the intended result is the input frame unaligned, and the code as written raises at line 642 |
| AlignRefine.RunStages | backend/utils/geo_align.py:276-644 | after both early returns, the baseline, the coarse grid and then the fine or fallback stages give the specified refinement |
| AlignRefine.FarBaseline | backend/utils/geo_align.py:276-291 | with every nearest-edge distance 30 or more, the baseline score is infinite |
| AlignRefine.FarCoarse | backend/utils/geo_align.py:355-464 | with every nearest-edge distance 50 or more, the coarse grid holds no best |
| AlignRefine.FarForced | backend/utils/geo_align.py:603-644 | with every nearest-edge distance 100 or more, no forced rotation scores and the stage ends unaligned |
| AlignSearch.FarValidEmpty | backend/utils/geo_align.py:409 | with every distance at the tolerance or beyond, no distance is valid |
| AlignSearch.FarEvaluateNone | backend/utils/geo_align.py:407-415 | with every distance at the tolerance or beyond, the sample is not scored |
| AlignSearch.FarCandidatesUnscored | backend/utils/geo_align.py:386-415 | with every nearest-edge distance at the tolerance or beyond, no candidate of the grid scores |
| AlignRefine.FineStageFrame | backend/utils/geo_align.py:475-571 | the result is the coarse best applied, and a fine pick (from the fine grid, below the gate) applied on top of it |
| AlignRefine.FallbackStagesFrame | backend/utils/geo_align.py:574-644 | the fallback rotation (with a finite baseline) or the forced rotation is the input rotated about the box centre; otherwise the input frame |
| AlignRefine.RefineOutcomes | backend/utils/geo_align.py:230-644 | a refined result comes from the coarse grid's best and an optional fine pick below the gate; fallback and forced rotations happen only when the coarse grid held no score |
| BoundsSchema.ParsePoint | backend/schemas/bounds.py:12 | a point validates exactly when it is a list of two integers |
| BoundsSchema.ParsePoints | backend/schemas/bounds.py:18 | a point list validates exactly when every element does, and then holds each element's point in order |
| BoundsSchema.ParseOptionalPoints | backend/schemas/bounds.py:25 | an absent or `null` optional outline is `None` |
| BoundsSchema.ParseBbox | backend/schemas/bounds.py:24 | a bbox validates exactly when it is a list of four integers |
| BoundsSchema.ParseRegionName | backend/schemas/bounds.py:17 | a rect4 canvas name validates exactly when it is one of "CONUS", "Alaska", "Hawaii" |
| BoundsSchema.ParseCanvasEntry | backend/schemas/bounds.py:21-28 | an entry validates exactly when it is a dictionary with a string name, a four-int bbox, a numeric confidence and valid optional outlines, and keeps the given name |
| BoundsSchema.ParseCanvasRect4 | backend/schemas/bounds.py:15-18 | a rect4 canvas validates exactly when it is a dictionary with an admissible name and a point list |
| BoundsSchema.ParseEntries | backend/schemas/bounds.py:42 | the canvas list validates exactly when every entry does, and holds them in order |
| BoundsSchema.ParseRects | backend/schemas/bounds.py:35 | the rect4 canvas list validates exactly when every canvas does, and holds them in order |
| BoundsSchema.ParseMapCanvasBounds | backend/schemas/bounds.py:38-42 | a validated legacy document came from a dictionary with an admissible type tag and carries the one tag value |
| BoundsSchema.ParseBoundsDoc | backend/schemas/bounds.py:31-35 | a validated rect4 document came from a dictionary with an admissible type tag and carries the one tag value |
| BoundsSchema.DumpPoints | backend/services/bounds_store.py:19 | `model_dump` writes a point list as a list of the same length, point by point |
| BoundsSchema.DumpEntries | backend/services/bounds_store.py:19 | `model_dump` writes the canvas entries one for one |
| BoundsSchema.DumpRects | backend/services/bounds_store.py:19 | `model_dump` writes the rect4 canvases one for one |
| BoundsSchema.PointsRoundTrip | backend/schemas/bounds.py:12 | a dumped point list validates back to itself |
| BoundsSchema.CanvasEntryRoundTrip | backend/schemas/bounds.py:21-28 | a dumped canvas entry validates back to itself |
| BoundsSchema.ImageSizeRoundTrip | backend/schemas/bounds.py:6-8 | a dumped image size validates back to itself |
| BoundsSchema.EntriesRoundTrip | backend/schemas/bounds.py:42 | a dumped canvas list validates back to itself |
| BoundsSchema.CanvasRect4RoundTrip | backend/schemas/bounds.py:15-18 | a dumped rect4 canvas validates back to itself |
| BoundsSchema.RectsRoundTrip | backend/schemas/bounds.py:35 | a dumped rect4 canvas list validates back to itself |
| BoundsSchema.MapCanvasBoundsRoundTrip | backend/services/bounds_store.py:19-28 | what the bounds store writes with `model_dump` it reads back as the same document |
| BoundsSchema.BoundsDocRoundTrip | backend/schemas/bounds.py:31-35 | a dumped rect4 document validates back to itself |
| BoundsSchema.TypeTagDefault | backend/schemas/bounds.py:33 | a document without `type` validates exactly as it would with the tag "map_canvas_bounds" added |
| BoundsSchema.TypeTagOnly | backend/schemas/bounds.py:40 | a document with any other `type` is refused |
| BoundsSchema.EntryDefaults | backend/schemas/bounds.py:23-28 | an entry takes any string name and leaves absent polygon and rect4 as `None` |
| BoundsSchema.Rect4Rules | backend/schemas/bounds.py:17-18 | a rect4 canvas refuses a name outside the three regions and accepts a rect4 of three corners |
| Json.Lookup | backend/app.py:197-198 | a lookup misses exactly when the key is absent |
| Json.Put | backend/app.py:201-214 | after `d[k] = v`, `d[k]` is `v` |
| Json.Remove | backend/app.py:226-228 | after `del d[k]`, `k` is absent and the dictionary has not grown |
| Json.PutRemoveOthers | backend/app.py:201-228 | assignment and deletion leave every other key's value alone; assignment keeps an existing key's position and appends a new key |
| Json.Chars | backend/app.py:218-221 | iterating a string visits its one-character strings in order |
| Json.Index | backend/app.py:238 | `v[i]` succeeds only on a position of what iterating `v` visits, and returns that element |
| Json.ToList | backend/app.py:218-221 | `list(v)` succeeds exactly on iterable values and lists what iteration visits |
| Json.Get | backend/app.py:197-198 | `d.get(k, default)` gives the stored value when `k` is present and `default` otherwise, and fails only on a non-dictionary |
| Json.At | backend/app.py:233 | `d[k]` succeeds exactly on a dictionary holding `k` |
| App.KeepAllowed | backend/app.py:38 | the filter never lengthens its input, keeps only letters, digits, `_` and `-`, and leaves an input made only of those unchanged |
| App.KeepAllowedExactly | backend/app.py:38 | a character survives the filter exactly when it occurs in the input and is allowed |
| App.KeepAllowedNone | backend/app.py:38 | an input made only of refused characters filters to the empty string |
| App.LowerKeepsIdChars | backend/app.py:39 | lower-casing a filtered string keeps it made of id characters |
| App.SanitiseUploadId | backend/app.py:34-39 | a sanitised id is never empty and uses only id characters; it is "upload" when the filter leaves nothing, else the filtered string lower-cased |
| App.SanitiseIdempotent | backend/app.py:34-39 | sanitising a sanitised id changes nothing |
| App.SanitiseLayer | backend/app.py:52-54 | a sanitised layer uses only id characters |
| App.LayerDefault | backend/app.py:52 | a missing or blank layer becomes "uploaded" |
| App.LayerCanBeEmpty | backend/app.py:52-54 | the default comes before the filter, so the layer "!!!" ends up empty |
| App.RefusedLayerEmpty | backend/app.py:52-54 | any layer of refused characters without edge whitespace ends up empty |
| App.LowercaseUnchanged | backend/app.py:38-39 | a string of lower-case letters passes the filter and `lower()` unchanged |
| App.Projection | backend/app.py:80-82 | the projection is always "4326" or "5070": the stripped field when it names one of them, else "4326" |
| App.RewriteSimplifiedResult | backend/app.py:201-228 | a simplified payload gets the tag, the image size from its width and height and the one new canvas, loses width, height and corners, and keeps every other key's value |
| App.KeepAcross | backend/app.py:201-228 | the three deletions keep the tag, size and canvases just written |
| App.RemoveThreeKeeps | backend/app.py:226-228 | deleting width, height and corners leaves every other key's value alone |
| App.CornerCanvasDefaults | backend/app.py:197-224 | with only top-left and bottom-right given, the bbox is `[tl.x, tl.y, br.x, br.y]` and the polygon runs TL, (br.x, tl.y), BR, (tl.x, br.y) |
| App.CornerCanvasGiven | backend/app.py:207-212 | a truthy top-right or bottom-left corner is used as given |
| App.ConvertCornersCanvas | backend/app.py:232-247 | a canvas with corners and no bbox loses its corners; it gains the bbox from the corners exactly when both have two entries or more, then a polygon unless it had one; no other key changes; `bottom_right` is measured only when `top_left` has two entries |
| App.ShortTopLeftDropsCorners | backend/app.py:235-247 | line 237 short-circuits: a `top_left` of fewer than two entries only removes the corners, whatever `bottom_right` holds |
| App.CornersWithoutTopLeftNormalise | backend/app.py:229-247 | Example: such a canvas keeps only its name in the normalised payload |
| App.CornersWithoutTopLeftRefused | backend/app.py:229-252 | Example: a canvas whose corners hold only an unmeasurable `bottom_right` loses its corners and is refused by the schema with 400, not a crash |
| App.ConvertCanvasKeeps | backend/app.py:232 | a canvas without corners, or with a bbox, is left as it is |
| App.MapAll | backend/app.py:231-247 | converting a list succeeds exactly when every item converts, and then holds each converted item in order |
| App.ConvertCanvases | backend/app.py:231-247 | the loop over the canvases converts them in order and stops at the first that raises |
| App.CanvasNames | backend/app.py:262 | the panels answered are the canvas names, one per canvas, in order |
| App.SetBoundsSpec | backend/app.py:181-262 | a save is answered only when the body is JSON and the store accepted it, under the sanitised id, with a tagged document holding at least one canvas and its names as panels |
| App.SetBounds | backend/app.py:181-262 | the handler answers what the specification of `set_bounds` gives |
| App.NormaliseBody | backend/app.py:195-247 | the two rewriting branches give the normalised payload, or fail where Python raises |
| App.RewriteCanvases | backend/app.py:229-247 | the canvases loop writes the converted list back into the payload |
| App.ManualCanvasParses | backend/app.py:214-224 | the canvas built from two integer corners validates as CONUS with that bbox, the clockwise rectangle as polygon, confidence 0.95 and no rect4 |
| App.RectanglePointsParse | backend/app.py:216-222 | the four corner lists validate as the four points of the rectangle |
| App.SizeParses | backend/app.py:202-205 | the image size built from integer width and height validates as that size |
| App.SimplifiedSaved | backend/app.py:195-262 | a payload with integer width and height and only top-left and bottom-right corners is saved as one CONUS canvas with that bbox, rectangle and confidence 0.95, answering panels `["CONUS"]` |
| App.DefaultCornersPayload | backend/app.py:195-250 | such a payload normalises to the rewritten document, which validates as one canvas under the given size |
| App.SavedOne | backend/app.py:249-262 | a payload that normalises to a one-canvas document is saved under that canvas's name |
| App.CornersPayload | backend/app.py:195-250 | any readable corners dictionary gives a rewritten payload that validates as the one canvas built from the corners |
| App.RewrittenFromCorners | backend/app.py:201-250 | the rewritten payload validates as the one canvas under the given integer size |
| App.SavedWhenValid | backend/app.py:249-262 | a payload that normalises and validates with canvases is saved with its canvas names as panels |
| App.SimplifiedNormalises | backend/app.py:195-228 | a payload with width, height and a readable corners dictionary takes the simplified branch |
| App.RewrittenParses | backend/app.py:249-250 | a document with the tag, an integer size and one valid canvas validates as that document |
| App.ChooseBounds | backend/app.py:290-310 | stored bounds whose first canvas has confidence at least 0.75 are reused; otherwise the detector's bounds are used, a `ValueError` answers 400 and any other failure 500 |
| App.ManualBoundsReused | backend/app.py:195-310 | bounds saved through the corner form are reused by a later detection request whatever the detector would find |
| App.FirstNamed | backend/app.py:391 | the first canvas whose upper-cased name is one of the given names, or none when no canvas has such a name |
| App.ConusCanvas | backend/app.py:391 | the preview's canvas is one of the canvases, and is named CONUS in any case whenever one is |
| App.BboxRect | backend/app.py:395-397 | the bbox rectangle has four corners, starting at the top-left and with the bottom-right third |
| App.PreviewPolygon | backend/app.py:393-397 | the stored polygon when it has at least three points, else the bbox rectangle; always at least three points |
| App.PreviewRect4 | backend/app.py:400-406 | the stored rect4 when it has exactly four points, else the clockwise bbox rectangle; always four points |
| App.FillRegionMeaning | backend/app.py:428-458 | a supplied selection is never overwritten; a missing one is the box from rect4's first to third point, or the bbox, with rect4 stored beside it; no other key changes |
| App.PreviewSpec | backend/app.py:376-458 | a ready preview has a polygon of three points or more, a four-point rect4 and a supported projection |
| App.PreviewFor | backend/app.py:384-458 | the same for the bounds once looked up |
| App.PreviewOf | backend/app.py:391-406 | the drawn polygon has three points or more and the rect4 four |
| App.PreviewUsesConus | backend/app.py:379-411 | a ready preview had an id and stored bounds with canvases, and draws the CONUS canvas's bbox, polygon or bbox rectangle, rect4 or bbox rectangle, and the chosen projection |
| App.PreviewForConus | backend/app.py:388-411 | the same once the bounds are looked up |
| App.SuppliedSelectionKept | backend/app.py:428 | a supplied truthy Alaska selection survives the filling |
| App.MissingSelectionFilled | backend/app.py:422-442 | with no selections, an Alaska canvas with a four-point rect4 gives the box from its first to third point and stores the rect4 as `alaska_rect4` |
| App.GeoidColumn | backend/app.py:734-744 | the GEOID column has one entry per row |
| App.GeoidPriority | backend/app.py:734-744 | every GEOID has five characters or more and comes from GEOID, else GEO_ID, else STATEFP before COUNTYFP, else the row number, padded |
| App.PointGeoid | backend/app.py:767 | a selected point's GEOID has five characters or more and is unchanged when it already has five |
| App.FindCounty | backend/app.py:768-776 | the first row with that GEOID, or none exactly when no row has it |
| App.PaddedGeoidsMeet | backend/app.py:735-768 | Example: the point GEOID "6037" and the county built from state "6" and county "37" both pad to "06037" and meet |

## Left out

- Floating point: every float64 computation is an exact `real` (or `int` where the code truncates with `int()`), so rounding error, overflow to infinity and NaN arising inside arithmetic are not modelled; `Tps` alone models NaN and infinities, because `tps_transform_from_points` tests for them (backend/utils/tps.py:43-46).
- `cos`, `sin` and `np.sqrt` are not computed: rotations enter as the `trig` parameter (`AlignRefine.Inputs`) and Euclidean norms as a `norm` parameter (`Tps`); distances that are only compared against a threshold are compared squared.
- Character classes: `str.isalnum`, `str.lower` and `str.upper` are modelled on ASCII letters and digits only (`Text`); other Unicode letters are treated as neither letters nor digits.
- Text.ParseInt: reads ASCII digits only; `int` also accepts the other Unicode decimal digits (category Nd, such as Arabic-Indic `٢٥٥`), which the model refuses, because digit values outside ASCII would need the Unicode database. Whitespace is modelled as `int` treats it: `str.strip`'s whitespace is skipped except U+001C..U+001F, on which `int` raises. The digit limit is CPython's default `sys.int_max_str_digits` of 4300 (`Text.MaxStrDigits`) for base 10; a limit changed by `sys.set_int_max_str_digits` or `PYTHONINTMAXSTRDIGITS`, and Pythons before the limit existed, are not modelled.
- LegendText.ParseHexColour: a chunk of non-ASCII decimal digits raises in the model where Python reads its value, for the reason given under `Text.ParseInt`.
- LegendText.ParseLine: a comma colour written in non-ASCII decimal digits (`٢٥٥,0,0: x`) is dropped in the model where Python keeps `[255, 0, 0]`, for the reason given under `Text.ParseInt`.
- LegendText.ParseLegendText: inherits the two lines above for every line of the text.
- Geometry.TransformCoords: passes a missing geometry through, as the hand-written maps of backend/utils/homography.py do; the shapely maps raise on it instead, and that raise is modelled where they are called on a frame (`Geometry.ShapelyMapFrame`, `Homography.TransformGdfWithHomography`, `GeoAlign.FitGdfToBboxPixels`, `GeoTransform.TransformGeodataframeWithHomography`, `AlignRefine.RefineAlignmentWithEdgeMatching`). `Geometry.TransformFrame` is the map of every row once no row lacks a geometry.
- AlignRefine.CandidateFrame: keeps a missing geometry where `translate(scale(rotate(None)))` raises; the raise is modelled once for the whole function, at `AlignRefine.RefineAlignmentWithEdgeMatching`, since every path past line 262 applies a whole-frame transform.
- AlignRefine.RotateFrame: keeps a missing geometry where `rotate(None, ...)` raises, for the reason given under `AlignRefine.CandidateFrame`.
- AlignRefine.RefineOrKeep: no longer promises the intended refined frame when a row lacks a geometry: the refinement raises then, and the caller keeps the frame.
- AlignRefine.RefineSpec: requires `FrameHasRings`, as do the search stages beneath it, because it specifies the intended, non-raising path. Two raises are modelled beside it: the edge extraction's at backend/utils/geo_align.py:89, and the format specification at line 642, which raises whenever every stage failed (`Unaligned`; see "## Findings"). `AlignRefine.RefineAlignmentWithEdgeMatching` returns `None` for both, and `AlignRefine.RefineOrKeep` keeps the frame. `Geometry.Geom` has no GeometryCollection; its point and line geometries raise at line 89 in the model as in Python.
- pydantic's lax coercions (a numeric string accepted as an `int`, a float with no fraction accepted as an `int`, and the like) are not modelled; `BoundsSchema` accepts JSON integers for integer fields and JSON numbers for float fields, and rejects everything else.
- PanelDetect.DetectSpec: requires an image at least two pixels wide and one high with one profile entry per column and per row (`PanelDetect.WellFormed`), because `np.gradient` raises on a profile shorter than two; that error path is not modelled.
- PanelDetect.SortsBefore: ties in `np.argsort` of the gradient are broken by position (a stable sort); numpy's default quicksort does not promise that order among equal gradients.
- PanelDetect.Round3: `round(x, 3)` rounds a half up, where Python rounds a half to the even neighbour on the binary value; the two differ only on exact halves, and `PanelDetect.Round3Bounds` states only the bound both satisfy.
- OpenCV image analysis: Canny, morphology, `findContours`, `minAreaRect` and the smoothed ink profiles are inputs (`PanelDetect.Image`), as is the image's edge mask (`GeoAlign.Scoring`) and its edge-point count.
- rasterio rasterisation: a county's mask enters as the given set of covered pixels (`ColorSampling`), and an outline's rasterised edge pixels as the `raster` parameter of `GeoAlign.Scoring`.
- shapely, geopandas and pyproj: the clip by `intersection` is the `clip` parameter of `GeoAlign.FitInput`; `.boundary`, `unary_union`, `to_crs` and shapefile reading and writing are not modelled; `shapely.ops.transform` is modelled by its outcome: backend/utils/geo_transform.py's vectorised first call fails on numpy 1.24 and later (see "## Findings"), and the intended per-coordinate map is modelled beside it.
- Foreign solvers: `np.linalg.svd`, `np.linalg.lstsq` and scipy's `RBFInterpolator` are not computed; the model proves what any exact solution of the systems they are handed satisfies (`Homography`, `Tps`), and the fitted interpolants are parameters.
- The KD-tree: `cKDTree.query` is the `nearest` parameter of the search, a function from a point to its distance to the closest edge point.
- AlignRefine.Inputs: `is_alaska_hawaii` is the `ah` parameter; both branches are modelled although the callers in backend/data_processing.py never pass `True`.
- AlignSearch.Grid: the five nested loops of the refinement are flattened into one candidate sequence in the same order, and the early exit is the guard that stops the scan; the order of evaluation and the state reached are the same.
- The file system: which region shapefiles exist, the image-file search and image reading, CSV and GeoJSON writing, the county-name CSV join and `load_or_generate_geojson` are not modelled; where a result depends on them they are boolean or function parameters (`App`).
- The bounds store: saving is the `saveOk` parameter and the stored bounds a function from upload id to optional JSON; JSON persistence in backend/services/bounds_store.py is not modelled.
- `json.loads` is not modelled: request bodies and stored bounds enter already parsed, as `Json` values.
- Dictionary mutation in place: `dict` updates and `del` are modelled on values (`Json.Put`, `Json.Remove`), each returning the new dictionary; aliasing between dictionaries is not modelled.
- `str()` of a GeoDataFrame column: GEOID, GEO_ID, STATEFP and COUNTYFP columns enter as strings.
- PIL drawing and overlay rendering: `render_overlay_full_image`, `generate_bounds_overlay`, the whole of backend/utils/overlay_preview.py and the preview block at backend/data_processing.py:536-551 produce images only.
- The `else` branch at backend/data_processing.py:613-656 is not modelled: it cannot run, since `use_panel_fit` is always `True`, and it refers to an undefined `shp`.
- backend/app.py:110 passes `legend_type_info`, which `process_uploaded_image` does not accept, so that call raises; the call is not modelled.
- The hard-coded `emergency_bounds` fixtures at backend/data_processing.py:327-341 are not modelled.
- clip_conus_shapefile.py and make_region_outlines.py are ETL and plotting scripts with no GEOID filter; they are not modelled.
- create_projected_shapefiles.py and visualize_shapefile.py are ETL and plotting scripts too; only their GEOID prefix filters (create_projected_shapefiles.py:69, visualize_shapefile.py:45) are modelled, as `ConusFilter.StateCounties` and `ConusFilter.CountiesOutsideAlaskaHawaii`; their projections, file output and plots are not.
- Flask routes, form parsing, `send_file` and the HTTP responses are not modelled; the handlers' decisions are functions of their parsed inputs.
- `print` tracing is left out throughout, except the `print` at backend/utils/geo_align.py:642, whose raise is modelled.

## Findings

| source | as written | input that shows it | evidently intended | confidence | as-written member | corrected member |
|---|---|---|---|---|---|---|
| backend/utils/geo_align.py:642 | `f"{baseline_score:.2f if baseline_score < float('inf') else 'N/A'}"` puts the whole conditional into the format specification, which `float.__format__` refuses with a ValueError for every value, so once every stage has failed the function raises and `return gdf_px` at line 644 never runs | a frame with ring coordinates and image edges whose every edge is 100 pixels or more from every transformed point: the baseline is infinite, so fallback 1 is skipped, and the coarse grid and the forced rotations all go unscored | print the score, or `N/A` when it is infinite, and return the frame unchanged | not executed | `AlignRefine.RefineAlignmentWithEdgeMatching`, `AlignRefine.RefineAsWritten`, `AlignRefine.NoMatchUnaligned` | `AlignRefine.RefineSpec`, `AlignRefine.RefineEarlyReturns`, `AlignRefine.RefineOrKeep` |
| backend/utils/geo_transform.py:35 | `np.array([x, y, 1.0])` receives, on `shapely.ops.transform`'s first vectorised call, the tuple of all x values and the tuple of all y values; numpy 1.24 and later refuse that ragged array with a ValueError, which `shapely.ops.transform` does not catch (it retries point by point only after a TypeError), so every geometry with a coordinate raises | `Point(1, 2)` with the identity homography | apply the homography coordinate by coordinate, returning `Point(1, 2)` | not executed; depends on numpy 1.24 or later | `GeoTransform.TransformGeometryAsWritten`, `GeoTransform.TransformGeodataframeAsWritten`, `GeoTransform.RaggedArrayRaises` | `GeoTransform.TransformGeometryWithHomography`, `GeoTransform.TransformGeodataframeWithHomography`, `GeoTransform.IdentityFixesPoint` |
| backend/data_processing.py:161 | `pixel - existing_color` and its square are computed in `uint8`, so each channel term wraps modulo 256 and the squared distance is at most 765, whose root is below the tolerance 30: every pixel is "similar" to the first one kept, only that one colour survives, and the function always returns `None` | black `(0, 0, 0)` against white `(255, 255, 255)`: each channel difference wraps to 1, the wrapped squared distance is 3, so the two are merged | the Euclidean distance on integers, under which black and white are 195075 apart (squared) and kept apart | not executed | `LegendSelection.ExtractLegendAsWritten`, `LegendSelection.WrappedKeepsAtMostOne`, `LegendSelection.AsWrittenNeverReturnsLegend`, `LegendSelection.WrappedMergesBlackAndWhite` | `LegendSelection.ExtractLegendFromSelection`, `LegendSelection.DedupSpread`, `LegendSelection.DedupCovers` |

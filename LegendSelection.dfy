/**
 * The legend read from a user-selected rectangle of the map image, as
 * `extract_legend_from_selection` in backend/data_processing.py computes it: clamp the
 * rectangle into the image, keep each pixel colour that is at least 30 away from every
 * colour already kept, sort by luminance (brightest first) and label the colours
 * "Level 1", "Level 2", ...
 */
module LegendSelection {
  import opened Wrappers
  import opened Colors
  import opened Numeric
  import opened Text
  import opened LegendText

  /** A decoded RGB image, `np.array(img)`: `height` rows of `width` pixels. */
  datatype Raster = Raster(height: nat, width: nat, px: seq<seq<Rgb>>)

  predicate WellFormed(img: Raster) {
    |img.px| == img.height && forall i :: 0 <= i < |img.px| ==> |img.px[i]| == img.width
  }

  /** The `legend_selection` dict: `x`, `y`, `width` and `height`, as JSON numbers. */
  datatype Selection = Selection(x: real, y: real, width: real, height: real)

  /** The rectangle after `int()` and clamping: origin and extent in pixels. */
  datatype Crop = Crop(x: int, y: int, width: int, height: int)

  // ---------------------------------------------------------------------
  // Clamping and cropping

  /** The clamping of backend/data_processing.py:137-146 for an image of `h` rows and `w` columns. */
  function ClampSelection(sel: Selection, h: nat, w: nat): (c: Crop)
    ensures 0 <= c.x && 0 <= c.y
    ensures w > 0 ==> c.x < w
    ensures h > 0 ==> c.y < h
    ensures c.x + c.width <= w && c.y + c.height <= h
    ensures c.width <= Trunc(sel.width) && c.height <= Trunc(sel.height)
  {
    var x := Max(0, Min(Trunc(sel.x), w - 1));
    var y := Max(0, Min(Trunc(sel.y), h - 1));
    Crop(x, y, Min(Trunc(sel.width), w - x), Min(Trunc(sel.height), h - y))
  }

  /** A selection that already lies inside the image is kept as it is. */
  lemma ClampKeepsFitting(sel: Selection, h: nat, w: nat)
    requires 0 <= Trunc(sel.x) && 0 <= Trunc(sel.width) && Trunc(sel.x) + Trunc(sel.width) <= w
    requires 0 <= Trunc(sel.y) && 0 <= Trunc(sel.height) && Trunc(sel.y) + Trunc(sel.height) <= h
    requires Trunc(sel.x) < w && Trunc(sel.y) < h
    ensures ClampSelection(sel, h, w) == Crop(Trunc(sel.x), Trunc(sel.y), Trunc(sel.width), Trunc(sel.height))
  {
  }

  /** Python's normalisation of one bound of `s[start:stop]` for a sequence of length `len`. */
  function SliceBound(len: nat, i: int): (b: nat)
    ensures b <= len
    ensures 0 <= i <= len ==> b == i
  {
    if i < 0 then (if i + len < 0 then 0 else i + len) else if i > len then len else i
  }

  /** Python's `s[start:stop]`, negative bounds counting from the end. */
  function PySlice<T>(s: seq<T>, start: int, stop: int): (r: seq<T>)
    ensures 0 <= start <= stop <= |s| ==> r == s[start..stop]
  {
    var lo, hi := SliceBound(|s|, start), SliceBound(|s|, stop);
    if hi <= lo then [] else s[lo..hi]
  }

  /** The row slices `row[x:x+width]` of some rows, one after the other. */
  function CropRows(rows: seq<seq<Rgb>>, x: int, stop: int): (pixels: seq<Rgb>)
  {
    if rows == [] then [] else PySlice(rows[0], x, stop) + CropRows(rows[1..], x, stop)
  }

  /** `img_arr[y:y+height, x:x+width].reshape(-1, 3)`: the cropped pixels in row-major order. */
  function CropPixels(img: Raster, c: Crop): seq<Rgb> {
    CropRows(PySlice(img.px, c.y, c.y + c.height), c.x, c.x + c.width)
  }

  /** The row-major offset `r * w` of row `r`, written as repeated addition so that offsets stay linear. */
  function RowStart(r: nat, w: nat): nat {
    if r == 0 then 0 else RowStart(r - 1, w) + w
  }

  lemma {:induction false} RowStartIsProduct(r: nat, w: nat)
    ensures RowStart(r, w) == r * w
  {
    if r > 0 {
      RowStartIsProduct(r - 1, w);
      MulSucc(r, w);
    }
  }

  /** `r * w == w + (r - 1) * w`, the step between consecutive rows. */
  lemma MulSucc(r: nat, w: nat)
    requires r > 0
    ensures r * w == w + (r - 1) * w
  {
  }

  /** A cell of row `r < n` lies before the start of row `n`. */
  lemma {:induction false} RowStartBound(r: nat, col: nat, n: nat, w: nat)
    requires r < n && col < w
    ensures RowStart(r, w) + col < RowStart(n, w)
  {
    if r < n - 1 {
      RowStartBound(r, col, n - 1, w);
    }
  }

  /** For rows wide enough, the crop lists the rows' pixels in row-major order. */
  lemma {:induction false} CropRowsAt(rows: seq<seq<Rgb>>, x: nat, width: nat, r: nat, col: nat)
    requires forall i :: 0 <= i < |rows| ==> x + width <= |rows[i]|
    requires r < |rows| && col < width
    ensures RowStart(r, width) + col < |CropRows(rows, x, x + width)|
    ensures CropRows(rows, x, x + width)[RowStart(r, width) + col] == rows[r][x + col]
  {
    assert x + width <= |rows[0]|;
    if r == 0 {
      CropRowsHead(rows, x, width, col);
    } else {
      var tail := rows[1..];
      assert forall i :: 0 <= i < |tail| ==> x + width <= |tail[i]| by {
        forall i | 0 <= i < |tail| ensures x + width <= |tail[i]| {
          assert tail[i] == rows[i + 1];
        }
      }
      assert tail[r - 1] == rows[r];
      CropRowsAt(tail, x, width, r - 1, col);
      CropRowsTail(rows, x, width, RowStart(r - 1, width) + col);
    }
  }

  /** The first `width` pixels of a crop are the first row's. */
  lemma CropRowsHead(rows: seq<seq<Rgb>>, x: nat, width: nat, col: nat)
    requires |rows| > 0 && x + width <= |rows[0]| && col < width
    ensures col < |CropRows(rows, x, x + width)|
    ensures CropRows(rows, x, x + width)[col] == rows[0][x + col]
  {
    var head := PySlice(rows[0], x, x + width);
    assert CropRows(rows, x, x + width) == head + CropRows(rows[1..], x, x + width);
  }

  /** After the first row's `width` pixels come the crop of the remaining rows. */
  lemma CropRowsTail(rows: seq<seq<Rgb>>, x: nat, width: nat, k: nat)
    requires |rows| > 0 && x + width <= |rows[0]| && k < |CropRows(rows[1..], x, x + width)|
    ensures width + k < |CropRows(rows, x, x + width)|
    ensures CropRows(rows, x, x + width)[width + k] == CropRows(rows[1..], x, x + width)[k]
  {
    var head := PySlice(rows[0], x, x + width);
    assert CropRows(rows, x, x + width) == head + CropRows(rows[1..], x, x + width);
  }

  lemma {:induction false} CropRowsLength(rows: seq<seq<Rgb>>, x: nat, width: nat)
    requires forall i :: 0 <= i < |rows| ==> x + width <= |rows[i]|
    ensures |CropRows(rows, x, x + width)| == RowStart(|rows|, width)
  {
    if rows != [] {
      var tail := rows[1..];
      assert forall i :: 0 <= i < |tail| ==> x + width <= |tail[i]| by {
        forall i | 0 <= i < |tail| ensures x + width <= |tail[i]| {
          assert tail[i] == rows[i + 1];
        }
      }
      CropRowsLength(tail, x, width);
      assert |PySlice(rows[0], x, x + width)| == width;
    }
  }

  /** The rows of the image a crop inside it takes. */
  function CropRowRange(img: Raster, c: Crop): seq<seq<Rgb>>
    requires 0 <= c.y && 0 <= c.height && c.y + c.height <= |img.px|
  {
    img.px[c.y..c.y + c.height]
  }

  /** The rows a crop inside a well-formed image takes, each wide enough for the column range. */
  lemma CropRowsOfImage(img: Raster, c: Crop)
    requires WellFormed(img)
    requires 0 <= c.x && 0 <= c.y && 0 <= c.width && 0 <= c.height
    requires c.x + c.width <= img.width && c.y + c.height <= img.height
    ensures CropPixels(img, c) == CropRows(CropRowRange(img, c), c.x, c.x + c.width)
    ensures |CropRowRange(img, c)| == c.height
    ensures forall i :: 0 <= i < |CropRowRange(img, c)| ==> c.x + c.width <= |CropRowRange(img, c)[i]|
  {
    var rows := CropRowRange(img, c);
    forall i | 0 <= i < |rows| ensures c.x + c.width <= |rows[i]| {
      assert rows[i] == img.px[c.y + i];
    }
  }

  /**
   * For a crop with non-negative extent inside a well-formed image, pixel `r * width + col`
   * of the crop is image pixel `(y + r, x + col)`.
   */
  lemma CropPixelsAt(img: Raster, c: Crop, r: nat, col: nat)
    requires WellFormed(img)
    requires 0 <= c.x && 0 <= c.y && 0 <= c.width && 0 <= c.height
    requires c.x + c.width <= img.width && c.y + c.height <= img.height
    requires r < c.height && col < c.width
    ensures |CropPixels(img, c)| == RowStart(c.height, c.width)
    ensures RowStart(r, c.width) + col < RowStart(c.height, c.width)
    ensures CropPixels(img, c)[RowStart(r, c.width) + col] == img.px[c.y + r][c.x + col]
  {
    var x: nat, w: nat := c.x, c.width;
    var rows := CropRowRange(img, c);
    CropRowsOfImage(img, c);
    assert rows[r] == img.px[c.y + r];
    RowMajor(CropPixels(img, c), rows, x, w, r, col);
  }

  /** The length and the row-major indexing of `CropRows` together. */
  lemma RowMajor(pixels: seq<Rgb>, rows: seq<seq<Rgb>>, x: nat, w: nat, r: nat, col: nat)
    requires pixels == CropRows(rows, x, x + w)
    requires forall i :: 0 <= i < |rows| ==> x + w <= |rows[i]|
    requires r < |rows| && col < w
    ensures |pixels| == RowStart(|rows|, w)
    ensures RowStart(r, w) + col < |pixels|
    ensures pixels[RowStart(r, w) + col] == rows[r][x + col]
  {
    CropRowsLength(rows, x, w);
    CropRowsAt(rows, x, w, r, col);
  }

  // ---------------------------------------------------------------------
  // De-duplication

  /** Colour distance as the threshold test sees it: `sqrt(d) < 30` exactly when `d < 900`. */
  const Tolerance: nat := 900

  /** No colour already kept is within the tolerance of `px`. */
  predicate FarFromAll(px: Rgb, kept: seq<Rgb>, dist: (Rgb, Rgb) -> nat) {
    forall j :: 0 <= j < |kept| ==> dist(px, kept[j]) >= Tolerance
  }

  /** The colours the de-duplication loop keeps from `pixels`, in the order they were kept. */
  function Dedup(pixels: seq<Rgb>, dist: (Rgb, Rgb) -> nat): (kept: seq<Rgb>)
    ensures |kept| <= |pixels|
  {
    if pixels == [] then []
    else
      var kept := Dedup(pixels[..|pixels| - 1], dist);
      var px := pixels[|pixels| - 1];
      if FarFromAll(px, kept, dist) then kept + [px] else kept
  }

  /**
   * The nested loop of backend/data_processing.py:155-168: the inner loop stops at the first
   * kept colour closer than the tolerance.
   */
  method UniqueColours(pixels: seq<Rgb>, dist: (Rgb, Rgb) -> nat) returns (kept: seq<Rgb>)
    ensures kept == Dedup(pixels, dist)
  {
    kept := [];
    for i := 0 to |pixels|
      invariant kept == Dedup(pixels[..i], dist)
    {
      var px := pixels[i];
      var isUnique := true;
      var k := 0;
      while k < |kept|
        invariant 0 <= k <= |kept|
        invariant forall j :: 0 <= j < k ==> dist(px, kept[j]) >= Tolerance
      {
        if dist(px, kept[k]) < Tolerance {
          isUnique := false;
          break;
        }
        k := k + 1;
      }
      assert isUnique <==> FarFromAll(px, kept, dist);
      assert pixels[..i + 1][..i] == pixels[..i];
      if isUnique {
        kept := kept + [px];
      }
    }
    assert pixels[..|pixels|] == pixels;
  }

  /**
   * The distance as written, on rows of a uint8 array: the difference and its square wrap
   * modulo 256 channel by channel, and only the sum is widened.
   */
  function WrappedSqDist(a: Rgb, b: Rgb): (d: nat)
    ensures d <= 3 * 255
  {
    var dr, dg, db := (a.r - b.r) % 256, (a.g - b.g) % 256, (a.b - b.b) % 256;
    (dr * dr) % 256 + (dg * dg) % 256 + (db * db) % 256
  }

  // ---------------------------------------------------------------------
  // Luminance sort and labels

  /** `luminance(rgb)` scaled by 1000: `299 R + 587 G + 114 B`. */
  function Luma(c: Rgb): int {
    299 * c.r + 587 * c.g + 114 * c.b
  }

  predicate SortedByLumaDesc(s: seq<Rgb>) {
    forall i, j :: 0 <= i < j < |s| ==> Luma(s[i]) >= Luma(s[j])
  }

  /** `x` placed before the first colour that is not brighter. */
  function InsertDesc(x: Rgb, s: seq<Rgb>): (r: seq<Rgb>)
    ensures |r| == |s| + 1
  {
    if s == [] || Luma(s[0]) <= Luma(x) then [x] + s
    else [s[0]] + InsertDesc(x, s[1..])
  }

  /** Inserting into a brightest-first sequence keeps it brightest first; the head is the brighter of `x` and the old head. */
  lemma {:induction false} InsertDescSorted(x: Rgb, s: seq<Rgb>)
    requires SortedByLumaDesc(s)
    ensures SortedByLumaDesc(InsertDesc(x, s))
    ensures |s| > 0 ==> InsertDesc(x, s)[0] == (if Luma(s[0]) <= Luma(x) then x else s[0])
  {
    if s != [] && Luma(s[0]) > Luma(x) {
      var rest := InsertDesc(x, s[1..]);
      SortedTail(s);
      InsertDescSorted(x, s[1..]);
      assert Luma(s[0]) >= Luma(rest[0]);
      var r := [s[0]] + rest;
      forall i, j | 0 <= i < j < |r| ensures Luma(r[i]) >= Luma(r[j]) {
        if i == 0 {
          assert r[j] == rest[j - 1];
        } else {
          assert r[i] == rest[i - 1] && r[j] == rest[j - 1];
        }
      }
    }
  }

  /** Inserting adds exactly one occurrence of `x`. */
  lemma {:induction false} InsertDescPerm(x: Rgb, s: seq<Rgb>)
    ensures multiset(InsertDesc(x, s)) == multiset(s) + multiset{x}
  {
    if s != [] && Luma(s[0]) > Luma(x) {
      InsertDescPerm(x, s[1..]);
      assert s == [s[0]] + s[1..];
    }
  }

  /** `unique_colors.sort(key=luminance, reverse=True)`: a stable sort, brightest first. */
  function SortByLumaDesc(s: seq<Rgb>): (r: seq<Rgb>)
    ensures |r| == |s|
  {
    if s == [] then [] else InsertDesc(s[0], SortByLumaDesc(s[1..]))
  }

  /** The sort's result is brightest first. */
  lemma {:induction false} SortByLumaSorted(s: seq<Rgb>)
    ensures SortedByLumaDesc(SortByLumaDesc(s))
  {
    if s != [] {
      SortByLumaSorted(s[1..]);
      InsertDescSorted(s[0], SortByLumaDesc(s[1..]));
    }
  }

  /** The sort's result is a permutation of its input. */
  lemma {:induction false} SortByLumaPerm(s: seq<Rgb>)
    ensures multiset(SortByLumaDesc(s)) == multiset(s)
  {
    if s != [] {
      SortByLumaPerm(s[1..]);
      InsertDescPerm(s[0], SortByLumaDesc(s[1..]));
      assert s == [s[0]] + s[1..];
    }
  }

  /** The colours of `s` whose luminance is `key`, in order. */
  function WithLuma(s: seq<Rgb>, key: int): seq<Rgb> {
    if s == [] then []
    else (if Luma(s[0]) == key then [s[0]] else []) + WithLuma(s[1..], key)
  }

  lemma SortedTail(s: seq<Rgb>)
    requires s != [] && SortedByLumaDesc(s)
    ensures SortedByLumaDesc(s[1..])
  {
    forall i, j | 0 <= i < j < |s| - 1 ensures Luma(s[1..][i]) >= Luma(s[1..][j]) {
      assert s[1..][i] == s[i + 1] && s[1..][j] == s[j + 1];
    }
  }

  lemma WithLumaCons(c: Rgb, t: seq<Rgb>, key: int)
    ensures WithLuma([c] + t, key) == (if Luma(c) == key then [c] else []) + WithLuma(t, key)
  {
    assert ([c] + t)[1..] == t;
  }

  lemma {:induction false} WithLumaInsert(x: Rgb, s: seq<Rgb>, key: int)
    ensures WithLuma(InsertDesc(x, s), key) == (if Luma(x) == key then [x] else []) + WithLuma(s, key)
  {
    if s == [] || Luma(s[0]) <= Luma(x) {
      WithLumaCons(x, s, key);
    } else {
      var t := InsertDesc(x, s[1..]);
      assert InsertDesc(x, s) == [s[0]] + t;
      WithLumaCons(s[0], t, key);
      WithLumaInsert(x, s[1..], key);
      assert s == [s[0]] + s[1..];
      WithLumaCons(s[0], s[1..], key);
    }
  }

  /** Stability: colours of equal luminance keep their relative order. */
  lemma {:induction false} SortStable(s: seq<Rgb>, key: int)
    ensures WithLuma(SortByLumaDesc(s), key) == WithLuma(s, key)
  {
    if s != [] {
      SortStable(s[1..], key);
      WithLumaInsert(s[0], SortByLumaDesc(s[1..]), key);
    }
  }

  /** The labelled legend: colour `i` is "Level i+1". */
  function Levels(cs: seq<Rgb>): (legend: seq<LegendEntry>)
    ensures |legend| == |cs|
  {
    if cs == [] then []
    else Levels(cs[..|cs| - 1]) + [LegendEntry(cs[|cs| - 1], "Level " + NatToString(|cs|))]
  }

  lemma {:induction false} LevelsAt(cs: seq<Rgb>, i: nat)
    requires i < |cs|
    ensures Levels(cs)[i] == LegendEntry(cs[i], "Level " + NatToString(i + 1))
  {
    if i < |cs| - 1 {
      LevelsAt(cs[..|cs| - 1], i);
    }
  }

  method LabelLevels(cs: seq<Rgb>) returns (legend: seq<LegendEntry>)
    ensures legend == Levels(cs)
  {
    legend := [];
    for i := 0 to |cs|
      invariant legend == Levels(cs[..i])
    {
      assert cs[..i + 1][..i] == cs[..i];
      legend := legend + [LegendEntry(cs[i], "Level " + NatToString(i + 1))];
    }
    assert cs[..|cs|] == cs;
  }

  // ---------------------------------------------------------------------
  // The whole function

  /** What `extract_legend_from_selection` returns for a colour distance `dist`. */
  function SelectionLegend(img: Raster, sel: Option<Selection>, dist: (Rgb, Rgb) -> nat): Option<seq<LegendEntry>> {
    if sel.None? then None
    else
      var pixels := CropPixels(img, ClampSelection(sel.value, img.height, img.width));
      var legend := Levels(SortByLumaDesc(Dedup(pixels, dist)));
      if |legend| >= 2 then Some(legend) else None
  }

  /**
   * `extract_legend_from_selection` with the distance computed on unbounded integers, the
   * evidently intended behaviour. `None` stands for a missing or empty selection.
   */
  method ExtractLegendFromSelection(img: Raster, sel: Option<Selection>) returns (r: Option<seq<LegendEntry>>)
    ensures r == SelectionLegend(img, sel, SqDist)
  {
    if sel.None? {
      return None;
    }
    var c := ClampSelection(sel.value, img.height, img.width);
    var pixels := CropPixels(img, c);
    var kept := UniqueColours(pixels, SqDist);
    var sorted := SortByLumaDesc(kept);
    var legend := LabelLevels(sorted);
    r := if |legend| >= 2 then Some(legend) else None;
  }

  /** `extract_legend_from_selection` as written, with the wrapped uint8 distance. */
  method ExtractLegendAsWritten(img: Raster, sel: Option<Selection>) returns (r: Option<seq<LegendEntry>>)
    ensures r == SelectionLegend(img, sel, WrappedSqDist)
  {
    if sel.None? {
      return None;
    }
    var c := ClampSelection(sel.value, img.height, img.width);
    var pixels := CropPixels(img, c);
    var kept := UniqueColours(pixels, WrappedSqDist);
    var sorted := SortByLumaDesc(kept);
    var legend := LabelLevels(sorted);
    r := if |legend| >= 2 then Some(legend) else None;
  }

  // ---------------------------------------------------------------------
  // Properties

  /** Under the wrapped distance every pixel is "close" to the first one: at most one colour is kept. */
  lemma {:induction false} WrappedKeepsAtMostOne(pixels: seq<Rgb>)
    ensures |Dedup(pixels, WrappedSqDist)| <= 1
    ensures pixels != [] ==> Dedup(pixels, WrappedSqDist) == [pixels[0]]
  {
    if |pixels| > 1 {
      var init := pixels[..|pixels| - 1];
      WrappedKeepsAtMostOne(init);
      assert init[0] == pixels[0];
      var kept := Dedup(init, WrappedSqDist);
      assert !FarFromAll(pixels[|pixels| - 1], kept, WrappedSqDist) by {
        assert WrappedSqDist(pixels[|pixels| - 1], kept[0]) < Tolerance;
      }
    } else if |pixels| == 1 {
      assert pixels[..0] == [];
    }
  }

  /** As written, the function never returns a legend. */
  lemma AsWrittenNeverReturnsLegend(img: Raster, sel: Option<Selection>)
    ensures SelectionLegend(img, sel, WrappedSqDist) == None
  {
    if sel.Some? {
      WrappedKeepsAtMostOne(CropPixels(img, ClampSelection(sel.value, img.height, img.width)));
    }
  }

  /** A concrete case: two clearly different colours are still merged as written. */
  lemma WrappedMergesBlackAndWhite()
    ensures WrappedSqDist(Rgb(0, 0, 0), Rgb(255, 255, 255)) == 3
    ensures SqDist(Rgb(0, 0, 0), Rgb(255, 255, 255)) == 195075
  {
  }

  /** The first pixel is always kept, first. */
  lemma {:induction false} DedupKeepsFirst(pixels: seq<Rgb>, dist: (Rgb, Rgb) -> nat)
    requires pixels != []
    ensures |Dedup(pixels, dist)| > 0 && Dedup(pixels, dist)[0] == pixels[0]
  {
    if |pixels| > 1 {
      var init := pixels[..|pixels| - 1];
      DedupKeepsFirst(init, dist);
      assert init[0] == pixels[0];
    } else {
      assert pixels[..0] == [];
    }
  }

  /** Every kept colour comes from the pixels. */
  lemma {:induction false} DedupFromPixels(pixels: seq<Rgb>, dist: (Rgb, Rgb) -> nat)
    ensures forall c :: c in Dedup(pixels, dist) ==> c in pixels
  {
    if pixels != [] {
      var init := pixels[..|pixels| - 1];
      DedupFromPixels(init, dist);
      assert forall c :: c in init ==> c in pixels;
    }
  }

  /** Kept colours are pairwise at least the tolerance apart (in the order they were kept). */
  lemma {:induction false} DedupSpread(pixels: seq<Rgb>)
    ensures forall i, j :: 0 <= i < j < |Dedup(pixels, SqDist)| ==>
      SqDist(Dedup(pixels, SqDist)[j], Dedup(pixels, SqDist)[i]) >= Tolerance
  {
    if pixels != [] {
      DedupSpread(pixels[..|pixels| - 1]);
    }
  }

  /** Some colour of `kept` is within the tolerance of `px`. */
  predicate Covered(px: Rgb, kept: seq<Rgb>) {
    exists j :: 0 <= j < |kept| && SqDist(px, kept[j]) < Tolerance
  }

  lemma CoveredExtend(px: Rgb, kept: seq<Rgb>, extra: seq<Rgb>)
    requires Covered(px, kept)
    ensures Covered(px, kept + extra)
  {
    var j :| 0 <= j < |kept| && SqDist(px, kept[j]) < Tolerance;
    assert (kept + extra)[j] == kept[j];
  }

  /** The pixel just looked at is covered by what the loop keeps after it. */
  lemma CoveredLast(px: Rgb, kept: seq<Rgb>)
    ensures Covered(px, if FarFromAll(px, kept, SqDist) then kept + [px] else kept)
  {
    if FarFromAll(px, kept, SqDist) {
      assert (kept + [px])[|kept|] == px;
      assert SqDist(px, px) == 0;
    } else {
      var j :| 0 <= j < |kept| && SqDist(px, kept[j]) < Tolerance;
    }
  }

  /** Every pixel is within the tolerance of some kept colour. */
  lemma {:induction false} DedupCovers(pixels: seq<Rgb>)
    ensures forall k :: 0 <= k < |pixels| ==> Covered(pixels[k], Dedup(pixels, SqDist))
  {
    if pixels != [] {
      var n := |pixels| - 1;
      var init := pixels[..n];
      DedupCovers(init);
      var before := Dedup(init, SqDist);
      var kept := Dedup(pixels, SqDist);
      CoveredLast(pixels[n], before);
      forall k | 0 <= k < n ensures Covered(pixels[k], kept) {
        assert pixels[k] == init[k];
        if FarFromAll(pixels[n], before, SqDist) {
          CoveredExtend(pixels[k], before, [pixels[n]]);
        }
      }
    }
  }

  /**
   * The legend's promises: `None` when fewer than two distinct colours were kept; otherwise
   * entry `i` is the `i`-th kept colour in brightness order, labelled "Level i+1".
   */
  lemma LegendShape(img: Raster, sel: Option<Selection>)
    requires sel.Some?
    ensures var kept := Dedup(CropPixels(img, ClampSelection(sel.value, img.height, img.width)), SqDist);
      && (SelectionLegend(img, sel, SqDist).None? <==> |kept| < 2)
      && (SelectionLegend(img, sel, SqDist).Some? ==>
        var legend := SelectionLegend(img, sel, SqDist).value;
        |legend| == |kept|
        && forall i :: 0 <= i < |legend| ==>
          legend[i] == LegendEntry(SortByLumaDesc(kept)[i], "Level " + NatToString(i + 1)))
  {
    var kept := Dedup(CropPixels(img, ClampSelection(sel.value, img.height, img.width)), SqDist);
    var sorted := SortByLumaDesc(kept);
    forall i | 0 <= i < |sorted| ensures Levels(sorted)[i] == LegendEntry(sorted[i], "Level " + NatToString(i + 1)) {
      LevelsAt(sorted, i);
    }
  }
}

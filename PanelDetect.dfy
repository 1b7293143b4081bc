/**
 * backend/utils/panel_detect.py: the decisions `detect_map_panel_like_screenshot` takes
 * over the ink profiles and contours OpenCV measures (the legend cut column, the top of
 * the title band, the admission and scoring of panel candidates, the fallback rectangles
 * and the final inset), and the bounds record `detect_panel_bounds` builds from them.
 * Reading the image, the blur, the Canny edge map and the contour tracing are left to
 * OpenCV: their outputs are inputs here.
 */
module PanelDetect {
  import opened Wrappers
  import opened Numeric
  import Sorting
  import BoundsSchema

  // ---------------------------------------------------------------------------------
  // Profiles
  // ---------------------------------------------------------------------------------

  /** Line 41: the kernel `_smooth` blurs with, odd and at least 3. */
  function KernelSize(k: int): (r: int)
    ensures r >= 3 && r % 2 == 1
    ensures k >= 3 ==> (r == k || r == k + 1)
  {
    var odd := if k % 2 == 0 then k + 1 else k;
    Max(3, odd)
  }

  /** Lines 68 and 92: `max(15, n // 128)` before `_smooth` makes it odd. */
  function ProfileKernel(n: nat): (r: int)
    ensures r >= 15 && r % 2 == 1
  {
    KernelSize(Max(15, n / 128))
  }

  /** `np.gradient` with unit spacing: one-sided at the ends, central inside. */
  function Gradient(f: seq<real>): (g: seq<real>)
    requires |f| >= 2
    ensures |g| == |f|
  {
    seq(|f|, i requires 0 <= i < |f| =>
      if i == 0 then f[1] - f[0] else if i == |f| - 1 then f[i] - f[i - 1] else (f[i + 1] - f[i - 1]) / 2.0)
  }

  function Sum(s: seq<real>): real {
    if |s| == 0 then 0.0 else Sum(s[..|s| - 1]) + s[|s| - 1]
  }

  function Mean(s: seq<real>): real
    requires |s| > 0
  {
    Sum(s) / |s| as real
  }

  // ---------------------------------------------------------------------------------
  // The legend cut (lines 66-83)
  // ---------------------------------------------------------------------------------

  /** Line 72. */
  function RightStart(w: nat): nat {
    Max(0, Trunc(0.60 * w as real))
  }

  /** `y` sorts before `x` in a stable ascending argsort of the gradient. */
  predicate SortsBefore(grad: seq<real>, y: nat, x: nat)
    requires y < |grad| && x < |grad|
  {
    grad[y] < grad[x] || (grad[y] == grad[x] && y < x)
  }

  /** How many positions of `[lo, hi)` sort before `x`. */
  function RankIn(grad: seq<real>, x: nat, lo: nat, hi: nat): (n: nat)
    requires x < |grad| && lo <= hi <= |grad|
    ensures n <= hi - lo
    decreases hi - lo
  {
    if lo == hi then 0 else RankIn(grad, x, lo, hi - 1) + (if SortsBefore(grad, hi - 1, x) then 1 else 0)
  }

  /** Line 73: `x` is among the ten most negative gradients at or after `lo`. */
  predicate IsCutCandidate(grad: seq<real>, lo: nat, x: nat) {
    lo <= x < |grad| && RankIn(grad, x, lo, |grad|) < 10
  }

  /** Lines 77-79: less ink to the right of `x` than 0.6 times the ink just left of it. */
  predicate HasGap(colS: seq<real>, x: nat)
    requires 0 < x < |colS|
  {
    var rightMean := if x + 10 < |colS| then Mean(colS[x + 10..]) else 0.0;
    var leftMean := Mean(colS[Max(0, x - 40)..x]);
    rightMean < 0.6 * leftMean
  }

  predicate Cuts(colS: seq<real>, grad: seq<real>, lo: nat, x: nat)
    requires |grad| == |colS| && 0 < lo
  {
    IsCutCandidate(grad, lo, x) && HasGap(colS, x)
  }

  /** The first position from `x` on that is a candidate with a gap. */
  function FirstCut(colS: seq<real>, grad: seq<real>, lo: nat, x: nat): (r: Option<nat>)
    requires |grad| == |colS| && 0 < lo
    ensures r.Some? ==> x <= r.value < |colS| && Cuts(colS, grad, lo, r.value)
    decreases |colS| - x
  {
    if x >= |colS| then None
    else if Cuts(colS, grad, lo, x) then Some(x)
    else FirstCut(colS, grad, lo, x + 1)
  }

  /** Line 83. */
  function FallbackCut(w: nat): int {
    Trunc(0.92 * w as real)
  }

  /** Lines 66-83: the column the legend is cut at. */
  function CutX(colS: seq<real>): (c: int)
    requires |colS| >= 2
  {
    var lo := RightStart(|colS|);
    var r := FirstCut(colS, Gradient(colS), lo, lo);
    if r.Some? then r.value else FallbackCut(|colS|)
  }

  /** Line 72 leaves at least one column on each side of the right-hand search for an image two or more columns wide. */
  lemma RightStartInside(w: nat)
    requires w >= 2
    ensures 0 < RightStart(w) < w
    ensures 0 < FallbackCut(w) < w
  {
    TruncBetween(0.60 * w as real, 1, w);
    TruncBetween(0.92 * w as real, 1, w);
    assert Trunc(0.60 * w as real) as real <= 0.60 * w as real < w as real;
    assert Trunc(0.92 * w as real) as real <= 0.92 * w as real < w as real;
  }

  /**
   * The cut is the smallest candidate that has a gap, and no smaller candidate has one;
   * with none, it is the fallback column.
   */
  lemma {:induction false} FirstCutIsSmallest(colS: seq<real>, grad: seq<real>, lo: nat, x: nat)
    requires |grad| == |colS| && 0 < lo <= x
    ensures var r := FirstCut(colS, grad, lo, x);
      (r.None? ==> forall y :: x <= y < |colS| ==> !Cuts(colS, grad, lo, y))
      && (r.Some? ==> forall y :: x <= y < r.value ==> !Cuts(colS, grad, lo, y))
    decreases |colS| - x
  {
    if x < |colS| && !Cuts(colS, grad, lo, x) {
      FirstCutIsSmallest(colS, grad, lo, x + 1);
    }
  }

  lemma CutXMeaning(colS: seq<real>)
    requires |colS| >= 2
    ensures var lo := RightStart(|colS|); var grad := Gradient(colS);
      (CutX(colS) == FallbackCut(|colS|) && forall y :: lo <= y < |colS| ==> !Cuts(colS, grad, lo, y))
      || (lo <= CutX(colS) < |colS| && Cuts(colS, grad, lo, CutX(colS))
          && forall y :: lo <= y < CutX(colS) ==> !Cuts(colS, grad, lo, y))
    ensures 0 < CutX(colS) < |colS|
  {
    RightStartInside(|colS|);
    FirstCutIsSmallest(colS, Gradient(colS), RightStart(|colS|), RightStart(|colS|));
  }

  /** The most negative gradient of the right-hand part is always a candidate. */
  lemma {:induction false} SteepestIsCandidate(grad: seq<real>, lo: nat, x: nat)
    requires lo <= x < |grad|
    requires forall y :: lo <= y < |grad| ==> grad[x] < grad[y] || y == x
    ensures IsCutCandidate(grad, lo, x)
  {
    RankZero(grad, x, lo, |grad|);
  }

  lemma {:induction false} RankZero(grad: seq<real>, x: nat, lo: nat, hi: nat)
    requires x < |grad| && lo <= hi <= |grad|
    requires forall y :: lo <= y < |grad| ==> grad[x] < grad[y] || y == x
    ensures RankIn(grad, x, lo, hi) == 0
    decreases hi - lo
  {
    if lo < hi {
      RankZero(grad, x, lo, hi - 1);
    }
  }

  /** How many positions sort before `x`, counted the way lines 73-75 rank them. */
  method CountBefore(grad: seq<real>, x: nat, lo: nat) returns (n: nat)
    requires lo <= x < |grad|
    ensures n == RankIn(grad, x, lo, |grad|)
  {
    n := 0;
    var y := lo;
    while y < |grad|
      invariant lo <= y <= |grad|
      invariant n == RankIn(grad, x, lo, y)
    {
      if grad[y] < grad[x] || (grad[y] == grad[x] && y < x) {
        n := n + 1;
      }
      y := y + 1;
    }
  }

  /** Lines 70-83: candidates are visited in increasing column order and the first with a gap wins. */
  method FindCutX(colS: seq<real>) returns (cut: int)
    requires |colS| >= 2
    ensures cut == CutX(colS)
  {
    var grad := Gradient(colS);
    var lo := RightStart(|colS|);
    RightStartInside(|colS|);
    var x := lo;
    while x < |colS|
      invariant lo <= x <= |colS|
      invariant FirstCut(colS, grad, lo, lo) == FirstCut(colS, grad, lo, x)
      decreases |colS| - x
    {
      var rank := CountBefore(grad, x, lo);
      if rank < 10 && HasGap(colS, x) {
        return x;
      }
      x := x + 1;
    }
    cut := FallbackCut(|colS|);
  }

  // ---------------------------------------------------------------------------------
  // The title band (lines 90-101)
  // ---------------------------------------------------------------------------------

  /** Line 94. */
  function InkThreshold(ww: int): real {
    0.015 * ww as real
  }

  /** Line 96: `min(Hw - 1, int(0.25 * H))` rows are scanned. */
  function ScanRows(h: nat): int {
    Min(h - 1, Trunc(0.25 * h as real))
  }

  /** The first row in `[i, n)` whose smoothed ink exceeds the threshold. */
  function FirstInkRow(rowS: seq<real>, thresh: real, i: nat, n: int): (r: Option<nat>)
    requires n <= |rowS|
    ensures r.Some? ==> i <= r.value < n && rowS[r.value] > thresh
    decreases n - i
  {
    if i >= n then None
    else if rowS[i] > thresh then Some(i)
    else FirstInkRow(rowS, thresh, i + 1, n)
  }

  /** Lines 95-101. */
  function TopY(rowS: seq<real>, ww: int): int
    requires |rowS| >= 1
  {
    var h := |rowS|;
    var r := FirstInkRow(rowS, InkThreshold(ww), 0, ScanRows(h));
    Min(h - 2, (if r.Some? then r.value else 0) + 6)
  }

  /**
   * The band's top is six rows below the first inked scanned row (row 0 when none is),
   * never past the last row but one, and no earlier scanned row carries ink.
   */
  lemma {:induction false} FirstInkRowIsFirst(rowS: seq<real>, thresh: real, i: nat, n: int)
    requires n <= |rowS|
    ensures var r := FirstInkRow(rowS, thresh, i, n);
      (r.None? ==> forall j :: i <= j < n ==> rowS[j] <= thresh)
      && (r.Some? ==> forall j :: i <= j < r.value ==> rowS[j] <= thresh)
    decreases n - i
  {
    if i < n && rowS[i] <= thresh {
      FirstInkRowIsFirst(rowS, thresh, i + 1, n);
    }
  }

  lemma TopYMeaning(rowS: seq<real>, ww: int)
    requires |rowS| >= 1
    ensures var h := |rowS|; var r := FirstInkRow(rowS, InkThreshold(ww), 0, ScanRows(h));
      TopY(rowS, ww) <= h - 2 && TopY(rowS, ww) <= 6 + (if r.Some? then r.value else 0)
      && (r.None? ==> forall j :: 0 <= j < ScanRows(h) ==> rowS[j] <= InkThreshold(ww))
      && (r.Some? ==> r.value < h / 4 + 1 && forall j :: 0 <= j < r.value ==> rowS[j] <= InkThreshold(ww))
  {
    FirstInkRowIsFirst(rowS, InkThreshold(ww), 0, ScanRows(|rowS|));
  }

  /** Lines 95-101: the scan breaks at the first inked row. */
  method FindTopY(rowS: seq<real>, ww: int) returns (top: int)
    requires |rowS| >= 1
    ensures top == TopY(rowS, ww)
  {
    var thresh := InkThreshold(ww);
    var n := ScanRows(|rowS|);
    var first := 0;
    var i := 0;
    while i < n
      invariant 0 <= i && (i <= n || n <= 0)
      invariant FirstInkRow(rowS, thresh, 0, n) == FirstInkRow(rowS, thresh, i, n)
      decreases n - i
    {
      if rowS[i] > thresh {
        first := i;
        break;
      }
      i := i + 1;
    }
    top := Min(|rowS| - 2, first + 6);
  }

  // ---------------------------------------------------------------------------------
  // Candidates (lines 113-141)
  // ---------------------------------------------------------------------------------

  /** What OpenCV measures of one contour of the cropped edge map. */
  datatype Contour = Contour(area: real, x: int, y: int, w: int, h: int, minRectW: real, minRectH: real,
                             approx: seq<(int, int)>)

  /** Lines 25-31. */
  function Rectangularity(c: Contour): (r: real)
    ensures c.area <= 0.0 ==> r == 0.0
    ensures c.area > 0.0 ==> r > 0.0
  {
    if c.area <= 0.0 then 0.0 else c.area / RealMax(1.0, c.minRectW * c.minRectH)
  }

  function RealMax(a: real, b: real): real {
    if a >= b then a else b
  }

  function RealMin(a: real, b: real): real {
    if a <= b then a else b
  }

  function Abs(a: real): real {
    if a < 0.0 then -a else a
  }

  /** Line 122. */
  function BoxW(c: Contour): int { Max(c.w, 1) }

  function BoxH(c: Contour): int { Max(c.h, 1) }

  /** Lines 119-126: big enough and of the panel's aspect. */
  predicate Admitted(c: Contour, imgArea: real) {
    var ar := BoxW(c) as real / BoxH(c) as real;
    c.area >= 0.10 * imgArea && 1.15 <= ar <= 2.5
  }

  /** Lines 128-131. */
  function CentreScore(c: Contour, ww: real, hn: real): real
    requires ww > 0.0 && hn > 0.0
  {
    var cx := c.x as real + BoxW(c) as real / 2.0;
    var cy := c.y as real + BoxH(c) as real / 2.0;
    var cxn := Abs(cx - ww / 2.0) / (ww / 2.0);
    var cyn := Abs(cy - hn / 2.0) / (hn / 2.0);
    1.0 - RealMin(1.0, 0.6 * cxn + 0.4 * cyn)
  }

  /** Line 132. */
  function Score(c: Contour, ww: real, hn: real): real
    requires ww > 0.0 && hn > 0.0
  {
    0.65 * Rectangularity(c) + 0.35 * CentreScore(c, ww, hn)
  }

  /** A candidate panel: its score, its box in full-image pixels and its outline. */
  datatype Candidate = Candidate(score: real, bbox: BoundsSchema.Bbox, poly: seq<(int, int)>)

  /** Lines 134-141: the approximated outline and the box, moved down by the cropped band. */
  function MakeCandidate(c: Contour, topY: int, ww: real, hn: real): Candidate
    requires ww > 0.0 && hn > 0.0
  {
    var poly := seq(|c.approx|, i requires 0 <= i < |c.approx| => (c.approx[i].0, c.approx[i].1 + topY));
    Candidate(Score(c, ww, hn),
              BoundsSchema.Bbox(c.x, c.y + topY, c.x + BoxW(c), c.y + BoxH(c) + topY), poly)
  }

  /** Lines 117-141 over the first `n` contours. */
  function Candidates(cs: seq<Contour>, topY: int, ww: real, hn: real, n: nat): (r: seq<Candidate>)
    requires n <= |cs| && ww > 0.0 && hn > 0.0
    ensures |r| <= n
  {
    if n == 0 then []
    else
      var prev := Candidates(cs, topY, ww, hn, n - 1);
      var c := cs[n - 1];
      if Admitted(c, ww * hn) then prev + [MakeCandidate(c, topY, ww, hn)] else prev
  }

  /** Every candidate comes from an admitted contour, in contour order, and every admitted contour gives one. */
  lemma {:induction false} CandidatesAdmitted(cs: seq<Contour>, topY: int, ww: real, hn: real, n: nat)
    requires n <= |cs| && ww > 0.0 && hn > 0.0
    ensures var r := Candidates(cs, topY, ww, hn, n);
      (forall k :: 0 <= k < |r| ==> exists j :: 0 <= j < n && Admitted(cs[j], ww * hn) && r[k] == MakeCandidate(cs[j], topY, ww, hn))
      && (forall j :: 0 <= j < n && Admitted(cs[j], ww * hn) ==> MakeCandidate(cs[j], topY, ww, hn) in r)
  {
    if n > 0 {
      CandidatesAdmitted(cs, topY, ww, hn, n - 1);
    }
  }

  /** The centre score lies in [0, 1], so a candidate scores at most 0.65 times its rectangularity plus 0.35, and never below zero. */
  lemma ScoreBounds(c: Contour, ww: real, hn: real)
    requires ww > 0.0 && hn > 0.0
    ensures 0.0 <= CentreScore(c, ww, hn) <= 1.0
    ensures 0.65 * Rectangularity(c) <= Score(c, ww, hn) <= 0.65 * Rectangularity(c) + 0.35
    ensures Score(c, ww, hn) >= 0.0
  {
    var cx := c.x as real + BoxW(c) as real / 2.0;
    var cy := c.y as real + BoxH(c) as real / 2.0;
    var cxn := Abs(cx - ww / 2.0) / (ww / 2.0);
    var cyn := Abs(cy - hn / 2.0) / (hn / 2.0);
    assert cxn >= 0.0 && cyn >= 0.0;
  }

  /** Lines 117-141: the contour loop with its two `continue`s. */
  method CollectCandidates(cs: seq<Contour>, topY: int, ww: real, hn: real) returns (cands: seq<Candidate>)
    requires ww > 0.0 && hn > 0.0
    ensures cands == Candidates(cs, topY, ww, hn, |cs|)
  {
    cands := [];
    for i := 0 to |cs|
      invariant cands == Candidates(cs, topY, ww, hn, i)
    {
      var c := cs[i];
      if c.area < 0.10 * (ww * hn) {
        continue;
      }
      var ar := BoxW(c) as real / BoxH(c) as real;
      if ar < 1.15 || ar > 2.5 {
        continue;
      }
      cands := cands + [MakeCandidate(c, topY, ww, hn)];
    }
  }

  /** Line 156: `max` keeps the first of equal scores. */
  function BestIndex(cands: seq<Candidate>, n: nat): (b: nat)
    requires 0 < n <= |cands|
    ensures b < n
  {
    if n == 1 then 0
    else
      var b := BestIndex(cands, n - 1);
      if cands[n - 1].score > cands[b].score then n - 1 else b
  }

  /** The kept candidate scores at least as much as every other and strictly more than every earlier one. */
  lemma {:induction false} BestIndexIsFirstMax(cands: seq<Candidate>, n: nat)
    requires 0 < n <= |cands|
    ensures var b := BestIndex(cands, n);
      (forall j :: 0 <= j < n ==> cands[j].score <= cands[b].score)
      && (forall j :: 0 <= j < b ==> cands[j].score < cands[b].score)
  {
    if n > 1 {
      BestIndexIsFirstMax(cands, n - 1);
    }
  }

  // ---------------------------------------------------------------------------------
  // The result (lines 143-167)
  // ---------------------------------------------------------------------------------

  /** The dictionary `detect_map_panel_like_screenshot` returns. */
  datatype Panel = Panel(bbox: BoundsSchema.Bbox, polygon: seq<(int, int)>, confidence: real)

  function Rectangle(b: BoundsSchema.Bbox): seq<(int, int)> {
    [(b.x0, b.y0), (b.x1, b.y0), (b.x1, b.y1), (b.x0, b.y1)]
  }

  /** `round(x, 3)`, halves rounded up. */
  function Round3(x: real): real {
    ((x * 1000.0 + 0.5).Floor as real) / 1000.0
  }

  /** Line 160. */
  function Inset(w: nat, h: nat): int {
    Max(2, Trunc(0.004 * Max(w, h) as real))
  }

  /** Lines 158-167: the winner's box moved inward, its left and top clamped, the confidence rounded. */
  function FinishPanel(c: Candidate, w: nat, h: nat): Panel {
    var inset := Inset(w, h);
    var x1 := c.bbox.x1 - inset;
    var y1 := c.bbox.y1 - inset;
    var x0 := Max(0, Min(c.bbox.x0 + inset, x1 - 2));
    var y0 := Max(0, Min(c.bbox.y0 + inset, y1 - 2));
    var b := BoundsSchema.Bbox(x0, y0, x1, y1);
    Panel(b, Rectangle(b), Round3(RealMin(1.0, c.score)))
  }

  /** Lines 143-154: with no candidate, the box of the ink left of the cut, or the whole image. */
  function InkFallback(ink: seq<(nat, nat)>, cut: int, w: nat, h: nat): Panel {
    var kept := InkLeftOf(ink, cut, |ink|);
    if |kept| == 0 then
      var b := BoundsSchema.Bbox(0, 0, w - 1, h - 1);
      Panel(b, Rectangle(b), 0.25)
    else
      var xs := seq(|kept|, i requires 0 <= i < |kept| => kept[i].0 as int);
      var ys := seq(|kept|, i requires 0 <= i < |kept| => kept[i].1 as int);
      var b := BoundsSchema.Bbox(Sorting.MinOf(xs), Max(0, Sorting.MinOf(ys) + 6), Sorting.MaxOf(xs), Sorting.MaxOf(ys));
      Panel(b, Rectangle(b), 0.45)
  }

  /** Line 145: the inked pixels `(x, y)` of columns left of the cut. */
  function InkLeftOf(ink: seq<(nat, nat)>, cut: int, n: nat): (r: seq<(nat, nat)>)
    requires n <= |ink|
    ensures forall k :: 0 <= k < |r| ==> r[k] in ink[..n] && r[k].0 < cut
    ensures forall k :: 0 <= k < n && ink[k].0 < cut ==> ink[k] in r
  {
    if n == 0 then []
    else
      var prev := InkLeftOf(ink, cut, n - 1);
      assert ink[..n] == ink[..n - 1] + [ink[n - 1]];
      if ink[n - 1].0 < cut then prev + [ink[n - 1]] else prev
  }

  /** What the detector is given: the image size, the two smoothed ink profiles, the inked pixels, and the contours OpenCV finds in a crop. */
  datatype Image = Image(w: nat, h: nat, colS: seq<real>, rowS: seq<real>, ink: seq<(nat, nat)>,
                         contoursOf: (int, int) -> seq<Contour>)

  predicate WellFormed(img: Image) {
    img.w >= 2 && img.h >= 1 && |img.colS| == img.w && |img.rowS| == img.h
  }

  /** Lines 47-167. */
  function DetectSpec(img: Image): Panel
    requires WellFormed(img)
  {
    var cut := CutX(img.colS);
    CutXMeaning(img.colS);
    var top := TopY(img.rowS, cut);
    var ww := cut as real;
    var hn := (img.h - top) as real;
    var cands := Candidates(img.contoursOf(cut, top), top, ww, hn, |img.contoursOf(cut, top)|);
    if |cands| == 0 then InkFallback(img.ink, cut, img.w, img.h)
    else FinishPanel(cands[BestIndex(cands, |cands|)], img.w, img.h)
  }

  /** `detect_map_panel_like_screenshot`, lines 47-167. */
  method DetectMapPanelLikeScreenshot(img: Image) returns (p: Panel)
    requires WellFormed(img)
    ensures p == DetectSpec(img)
  {
    var cut := FindCutX(img.colS);
    CutXMeaning(img.colS);
    var top := FindTopY(img.rowS, cut);
    var ww := cut as real;
    var hn := (img.h - top) as real;
    var cands := CollectCandidates(img.contoursOf(cut, top), top, ww, hn);
    if |cands| == 0 {
      return InkFallback(img.ink, cut, img.w, img.h);
    }
    var best := 0;
    for i := 1 to |cands|
      invariant best == BestIndex(cands, i)
    {
      if cands[i].score > cands[best].score {
        best := i;
      }
    }
    p := FinishPanel(cands[best], img.w, img.h);
  }

  /**
   * Every result is a clean rectangle: its polygon is the four corners of its box, its
   * left and top are never negative, and its confidence lies in [0, 1].
   */
  lemma PanelShape(img: Image)
    requires WellFormed(img)
    ensures var p := DetectSpec(img);
      p.polygon == Rectangle(p.bbox) && p.bbox.x0 >= 0 && p.bbox.y0 >= 0 && 0.0 <= p.confidence <= 1.0
  {
    var cut := CutX(img.colS);
    CutXMeaning(img.colS);
    var top := TopY(img.rowS, cut);
    var cs := img.contoursOf(cut, top);
    var cands := Candidates(cs, top, cut as real, (img.h - top) as real, |cs|);
    if |cands| > 0 {
      WinnerShape(cs, top, cut as real, (img.h - top) as real, img.w, img.h);
    } else {
      FallbackShape(img.ink, cut, img.w, img.h);
    }
  }

  lemma WinnerShape(cs: seq<Contour>, top: int, ww: real, hn: real, w: nat, h: nat)
    requires ww > 0.0 && hn > 0.0
    requires |Candidates(cs, top, ww, hn, |cs|)| > 0
    ensures var cands := Candidates(cs, top, ww, hn, |cs|);
      var p := FinishPanel(cands[BestIndex(cands, |cands|)], w, h);
      p.polygon == Rectangle(p.bbox) && p.bbox.x0 >= 0 && p.bbox.y0 >= 0 && 0.0 <= p.confidence <= 1.0
  {
    var cands := Candidates(cs, top, ww, hn, |cs|);
    var c := cands[BestIndex(cands, |cands|)];
    CandidatesAdmitted(cs, top, ww, hn, |cs|);
    assert c in cands;
    var j :| 0 <= j < |cs| && Admitted(cs[j], ww * hn) && c == MakeCandidate(cs[j], top, ww, hn);
    ScoreBounds(cs[j], ww, hn);
    Round3Bounds(RealMin(1.0, c.score));
  }

  /**
   * Without a candidate: the whole image at confidence 0.25 when no pixel left of the cut is
   * inked, otherwise a box at confidence 0.45 spanning the inked columns left of the cut and
   * reaching down to the lowest inked row there.
   */
  lemma FallbackShape(ink: seq<(nat, nat)>, cut: int, w: nat, h: nat)
    ensures var p := InkFallback(ink, cut, w, h);
      p.polygon == Rectangle(p.bbox) && p.bbox.x0 >= 0 && p.bbox.y0 >= 0 && 0.0 <= p.confidence <= 1.0
    ensures (forall k :: 0 <= k < |ink| ==> ink[k].0 >= cut) ==>
      InkFallback(ink, cut, w, h) == Panel(BoundsSchema.Bbox(0, 0, w - 1, h - 1), Rectangle(BoundsSchema.Bbox(0, 0, w - 1, h - 1)), 0.25)
    ensures forall k :: 0 <= k < |ink| && ink[k].0 < cut ==>
      var p := InkFallback(ink, cut, w, h);
      p.confidence == 0.45 && p.bbox.x0 <= ink[k].0 <= p.bbox.x1 && ink[k].1 <= p.bbox.y1
  {
    var kept := InkLeftOf(ink, cut, |ink|);
    assert ink[..|ink|] == ink;
    if |kept| > 0 {
      var xs := seq(|kept|, i requires 0 <= i < |kept| => kept[i].0 as int);
      var ys := seq(|kept|, i requires 0 <= i < |kept| => kept[i].1 as int);
      assert Sorting.MinOf(xs) in xs;
      forall k | 0 <= k < |ink| && ink[k].0 < cut
        ensures Sorting.MinOf(xs) <= ink[k].0 <= Sorting.MaxOf(xs) && ink[k].1 <= Sorting.MaxOf(ys)
      {
        assert ink[k] in kept;
        var j :| 0 <= j < |kept| && kept[j] == ink[k];
        assert xs[j] == ink[k].0 && ys[j] == ink[k].1;
      }
    }
  }

  /** Rounding to three places moves a value by at most half a thousandth and keeps [0, 1]. */
  lemma Round3Bounds(x: real)
    requires 0.0 <= x <= 1.0
    ensures 0.0 <= Round3(x) <= 1.0
    ensures x - 0.0005 <= Round3(x) <= x + 0.0005
  {
    var f := (x * 1000.0 + 0.5).Floor;
    assert f as real <= x * 1000.0 + 0.5 < f as real + 1.0;
    assert 0 <= f <= 1000;
  }

  /** Lines 160-162: with an inset of `i`, the left edge sits `i` inside the candidate's unless that would leave fewer than two columns. */
  lemma FinishClamps(c: Candidate, w: nat, h: nat)
    ensures var p := FinishPanel(c, w, h); var i := Inset(w, h);
      i >= 2 && p.bbox.x1 == c.bbox.x1 - i && p.bbox.y1 == c.bbox.y1 - i
      && (p.bbox.x0 == 0 || p.bbox.x0 <= p.bbox.x1 - 2) && (p.bbox.y0 == 0 || p.bbox.y0 <= p.bbox.y1 - 2)
      && (c.bbox.x0 >= 0 && c.bbox.x0 + i <= p.bbox.x1 - 2 ==> p.bbox.x0 == c.bbox.x0 + i)
      && (c.bbox.y0 >= 0 && c.bbox.y0 + i <= p.bbox.y1 - 2 ==> p.bbox.y0 == c.bbox.y0 + i)
  {
  }

  /** Line 160: the inset is two pixels up to images of 749 pixels and grows by one every 250 after. */
  lemma InsetExamples()
    ensures Inset(749, 10) == 2 && Inset(1000, 10) == 4 && Inset(10, 1250) == 5
  {
    TruncOfInt(4);
    TruncOfInt(5);
    assert 0.004 * 749.0 == 2.996;
    assert Trunc(2.996) == 2;
  }

  // ---------------------------------------------------------------------------------
  // detect_panel_bounds (lines 170-204)
  // ---------------------------------------------------------------------------------

  /** Lines 181-204: one canvas named CONUS; the image size read from the image, or taken from the box's far corner when it cannot be read. */
  function DetectPanelBounds(img: Image, readable: bool): (b: BoundsSchema.MapCanvasBounds)
    requires WellFormed(img)
    ensures |b.canvases| == 1 && b.canvases[0].name == "CONUS" && b.kind == BoundsSchema.BoundsType
    ensures var p := DetectSpec(img);
      b.canvases[0].bbox == p.bbox && b.canvases[0].polygon == Some(p.polygon)
      && b.canvases[0].confidence == p.confidence && b.canvases[0].rect4.None?
    ensures readable ==> b.imageSize == BoundsSchema.ImageSize(img.w, img.h)
    ensures !readable ==> b.imageSize == BoundsSchema.ImageSize(DetectSpec(img).bbox.x1, DetectSpec(img).bbox.y1)
  {
    var p := DetectSpec(img);
    var size := if readable then BoundsSchema.ImageSize(img.w, img.h) else BoundsSchema.ImageSize(p.bbox.x1, p.bbox.y1);
    PanelShape(img);
    var polygon := if |p.polygon| > 0 then Some(p.polygon) else None;
    BoundsSchema.MapCanvasBounds(BoundsSchema.BoundsType, size,
      [BoundsSchema.CanvasEntry("CONUS", p.bbox, polygon, p.confidence, None)])
  }
}

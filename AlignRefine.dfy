/**
 * `refine_alignment_with_edge_matching` (backend/utils/geo_align.py, lines 230-644) as a
 * whole: the early returns, the baseline, the coarse grid, the fine grid gated on the
 * coarse score, and the two rotation-only fallbacks, each applied to the frame of pixel
 * geometries. The image's edge detector is left out: only how many edge points it found
 * and the nearest-edge distance of their KD tree enter the model.
 */
module AlignRefine {
  import opened Wrappers
  import opened Geometry
  import opened AlignSearch
  import GeoAlign

  /** Every geometry is one the edge extraction accepts. */
  predicate FrameHasRings(fr: Frame) {
    forall i :: 0 <= i < |fr.rows| ==> GeoAlign.HasRings(fr.rows[i].geom)
  }

  /** Mapping coordinates keeps a geometry's type and part counts, so it stays acceptable. */
  lemma TransformKeepsRings(f: Pt -> Pt, g: Geom)
    requires GeoAlign.HasRings(g)
    ensures GeoAlign.HasRings(TransformCoords(f, g))
  {
  }

  /** Lines 394-403 and 535-543 on every geometry: `translate(scale(rotate(g)))` about the centre. */
  function CandidateFrame(fr: Frame, k: Candidate, c: Pt): (out: Frame)
    ensures |out.rows| == |fr.rows| && out.crs == fr.crs
    ensures forall i :: 0 <= i < |fr.rows| ==> out.rows[i].props == fr.rows[i].props
    ensures FrameHasRings(fr) ==> FrameHasRings(out)
  {
    var f := (p: Pt) => CandidatePoint(k, c, p);
    var out := TransformFrame(fr, f);
    assert FrameHasRings(fr) ==> FrameHasRings(out) by {
      if FrameHasRings(fr) {
        forall i | 0 <= i < |fr.rows| {
          TransformKeepsRings(f, fr.rows[i].geom);
        }
      }
    }
    out
  }

  /** Lines 579-581 and 614-616: `rotate(g, angle, origin=centre)` on every geometry. */
  function RotateFrame(fr: Frame, r: Rotation, c: Pt): (out: Frame)
    ensures |out.rows| == |fr.rows| && out.crs == fr.crs
    ensures forall i :: 0 <= i < |fr.rows| ==> out.rows[i].props == fr.rows[i].props
    ensures FrameHasRings(fr) ==> FrameHasRings(out)
  {
    var f := (p: Pt) => RotatePoint(r, c, p);
    var out := TransformFrame(fr, f);
    assert FrameHasRings(fr) ==> FrameHasRings(out) by {
      if FrameHasRings(fr) {
        forall i | 0 <= i < |fr.rows| {
          TransformKeepsRings(f, fr.rows[i].geom);
        }
      }
    }
    out
  }

  /** `_extract_shapefile_edge_points` of a frame. */
  function EdgeSample(fr: Frame, nPoints: Option<nat>): seq<Pt>
    requires FrameHasRings(fr)
  {
    GeoAlign.ExtractEdgePointsSpec(GeoAlign.Geoms(fr), nPoints)
  }

  /** Lines 80-110 on a frame whose geometries all have rings, so that nothing raises. */
  method FrameEdgeSample(fr: Frame, nPoints: Option<nat>) returns (sample: seq<Pt>)
    requires FrameHasRings(fr)
    ensures sample == EdgeSample(fr, nPoints)
  {
    var e := GeoAlign.ExtractShapefileEdgePoints(GeoAlign.Geoms(fr), nPoints);
    sample := e.value;
  }

  /** What the search is given. `imageEdges` is how many edge points the detector found; `nearest` is the tree's distance query. */
  datatype Inputs = Inputs(fr: Frame, imageEdges: nat, nearest: Pt -> real, bbox: GeoAlign.PixelBox,
                           ah: bool, trig: real -> Rotation)

  /** Lines 293-295. */
  function Centre(b: GeoAlign.PixelBox): Pt {
    Pt(b.x0 as real + (b.x1 - b.x0) as real / 2.0, b.y0 as real + (b.y1 - b.y0) as real / 2.0)
  }

  function Width(b: GeoAlign.PixelBox): real {
    (b.x1 - b.x0) as real
  }

  function Height(b: GeoAlign.PixelBox): real {
    (b.y1 - b.y0) as real
  }

  function MinNat(a: nat, b: nat): nat {
    if a <= b then a else b
  }

  /** The two cut-offs of each stage, for Alaska and Hawaii (`ah`) or the contiguous states. */
  function CoarseTol(ah: bool): real {
    if ah then 50.0 else 40.0
  }

  function CoarseThreshold(ah: bool): NonNeg {
    if ah then 0.01 else 0.02
  }

  function FineTol(ah: bool): real {
    if ah then 50.0 else 30.0
  }

  function FineThreshold(ah: bool): NonNeg {
    if ah then 0.02 else 0.05
  }

  /** Line 479: the fine grid runs only below this coarse score. */
  const FineGate: real := 15.0

  /** Line 578. */
  const FallbackAngles: seq<real> := [-20.0, -15.0, -10.0, -5.0, 5.0, 10.0, 15.0, 20.0]

  /** Lines 603-609. */
  function ForcedAngles(ah: bool): seq<real> {
    if ah then Linspace(-180.0, 180.0, 73) else Linspace(-45.0, 45.0, 19)
  }

  /** Lines 276-291: the score of the unrotated frame on at most 1000 samples, or infinity. */
  function Baseline(inp: Inputs, edgeCount: nat): Score
    requires FrameHasRings(inp.fr)
  {
    var sample := EdgeSample(inp.fr, Some(MinNat(1000, edgeCount)));
    if |sample| == 0 then Inf
    else
      var ev := Evaluate(Distances(inp.nearest, sample), 30.0, 0.05);
      if ev.Some? then Fin(ev.value.combined) else Inf
  }

  /** Lines 579-591 and 614-626: the frame rotated by one angle, resampled and scored. */
  function RotationEval(inp: Inputs, angle: real, nPoints: Option<nat>, tol: real, threshold: NonNeg): Option<Eval>
    requires FrameHasRings(inp.fr)
  {
    var sample := EdgeSample(RotateFrame(inp.fr, inp.trig(angle), Centre(inp.bbox)), nPoints);
    if |sample| == 0 then None else Evaluate(Distances(inp.nearest, sample), tol, threshold)
  }

  function RotationScores(inp: Inputs, angles: seq<real>, nPoints: Option<nat>, tol: real, threshold: NonNeg): (xs: seq<Option<real>>)
    requires FrameHasRings(inp.fr)
    ensures |xs| == |angles|
  {
    Combined(seq(|angles|, i requires 0 <= i < |angles| => RotationEval(inp, angles[i], nPoints, tol, threshold)))
  }

  /** How the returned frame came about. */
  datatype Outcome =
    | NoShapefileEdges
    | NoImageEdges
    | Refined(coarse: Candidate, fine: Option<Candidate>)
    | FallbackRotation(angle: real)
    | ForcedRotation(angle: real)
    | Unaligned

  datatype Refinement = Refinement(frame: Frame, outcome: Outcome)

  /** The coarse stage's sample: every edge point, or 2000 evenly spaced ones (lines 308-312). */
  function CoarseSearchOf(inp: Inputs, edges: seq<Pt>): Search {
    Search(GeoAlign.Sample(edges, Some(2000)), Centre(inp.bbox), inp.nearest, CoarseTol(inp.ah), CoarseThreshold(inp.ah))
  }

  function CoarseGrid(inp: Inputs): seq<Candidate> {
    Grid(inp.trig, CoarseRanges(inp.ah, Width(inp.bbox), Height(inp.bbox)))
  }

  function CoarseOf(inp: Inputs, edges: seq<Pt>, baseline: Score): Coarse {
    var s := CoarseSearchOf(inp, edges);
    CoarseRun(EvalAll(s, CoarseGrid(inp)), baseline, |s.sample|, inp.ah, |CoarseGrid(inp)|)
  }

  /** Lines 478-496: a fresh sample of the coarse best's frame and the grid around its angle. */
  function FineSearchOf(inp: Inputs, best: Candidate): Search
    requires FrameHasRings(inp.fr)
  {
    var c := Centre(inp.bbox);
    Search(EdgeSample(CandidateFrame(inp.fr, best, c), Some(2000)), c, inp.nearest, FineTol(inp.ah), FineThreshold(inp.ah))
  }

  function FineGrid(inp: Inputs, best: Candidate): seq<Candidate> {
    Grid(inp.trig, FineRanges(inp.ah, Width(inp.bbox), Height(inp.bbox), best.rot.angle))
  }

  /** Lines 475-571: the fine grid, run only below the gate, each better candidate applied to the coarse best's frame. */
  function FineStage(inp: Inputs, best: Candidate, score: real): Refinement
    requires FrameHasRings(inp.fr)
  {
    var c := Centre(inp.bbox);
    var bestFrame := CandidateFrame(inp.fr, best, c);
    if score < FineGate then
      var ks := FineGrid(inp, best);
      var p := MinRun(Combined(EvalAll(FineSearchOf(inp, best), ks)), Fin(score), |ks|);
      if p.index.Some? then Refinement(CandidateFrame(bestFrame, ks[p.index.value], c), Refined(best, Some(ks[p.index.value])))
      else Refinement(bestFrame, Refined(best, None))
    else Refinement(bestFrame, Refined(best, None))
  }

  /**
   * A fine candidate is applied only below the gate and only when it scores strictly below
   * the coarse score, and no fine candidate scores lower; with none applied, either the
   * gate was shut or no fine candidate beat the coarse score.
   */
  lemma FineStageImproves(inp: Inputs, best: Candidate, score: real)
    requires FrameHasRings(inp.fr)
    ensures var r := FineStage(inp, best, score); var s2 := FineSearchOf(inp, best);
      r.outcome == Refined(best, r.outcome.fine)
      && (r.outcome.fine.Some? ==>
            (score < FineGate && EvalCandidate(s2, r.outcome.fine.value).Some?
             && EvalCandidate(s2, r.outcome.fine.value).value.combined < score
             && forall k :: k in FineGrid(inp, best) && EvalCandidate(s2, k).Some? ==>
                  EvalCandidate(s2, r.outcome.fine.value).value.combined <= EvalCandidate(s2, k).value.combined))
      && (r.outcome.fine.None? && score < FineGate ==>
            forall k :: k in FineGrid(inp, best) && EvalCandidate(s2, k).Some? ==> EvalCandidate(s2, k).value.combined >= score)
  {
    var ks := FineGrid(inp, best);
    var s2 := FineSearchOf(inp, best);
    if score < FineGate {
      FineRunFacts(s2, ks, score);
    }
  }

  /** The strict-minimum walk over the fine grid `ks`, in terms of each candidate's evaluation. */
  lemma FineRunFacts(s2: Search, ks: seq<Candidate>, score: real)
    ensures var p := MinRun(Combined(EvalAll(s2, ks)), Fin(score), |ks|);
      (p.index.Some? ==>
         (EvalCandidate(s2, ks[p.index.value]).Some?
          && EvalCandidate(s2, ks[p.index.value]).value.combined < score
          && forall k :: k in ks && EvalCandidate(s2, k).Some? ==>
               EvalCandidate(s2, ks[p.index.value]).value.combined <= EvalCandidate(s2, k).value.combined))
      && (p.index.None? ==>
            forall k :: k in ks && EvalCandidate(s2, k).Some? ==> EvalCandidate(s2, k).value.combined >= score)
  {
    var evs := EvalAll(s2, ks);
    var xs := Combined(evs);
    MinRunFacts(xs, Fin(score), |ks|);
    MinRunNone(xs, Fin(score), |ks|);
    var p := MinRun(xs, Fin(score), |ks|);
    forall k | k in ks && EvalCandidate(s2, k).Some?
      ensures p.index.Some? ==> xs[p.index.value].value <= EvalCandidate(s2, k).value.combined
      ensures p.index.None? ==> EvalCandidate(s2, k).value.combined >= score
    {
      var j :| 0 <= j < |ks| && ks[j] == k;
      assert evs[j] == EvalCandidate(s2, k);
      if p.index.Some? {
        MinRunIsMinimum(xs, Fin(score), |ks|, j);
      }
    }
    if p.index.Some? {
      assert evs[p.index.value] == EvalCandidate(s2, ks[p.index.value]);
    }
  }

  /** Lines 603-644; `Unaligned` is the return of line 644, which line 642 keeps from running. */
  function ForcedStage(inp: Inputs, edgeCount: nat): Refinement
    requires FrameHasRings(inp.fr)
  {
    var angles := ForcedAngles(inp.ah);
    var p := MinRun(RotationScores(inp, angles, Some(MinNat(1000, edgeCount)), 100.0, 0.01), Inf, |angles|);
    if p.index.Some? then
      Refinement(RotateFrame(inp.fr, inp.trig(angles[p.index.value]), Centre(inp.bbox)), ForcedRotation(angles[p.index.value]))
    else Refinement(inp.fr, Unaligned)
  }

  /** Lines 574-644, reached when the coarse grid held no score. */
  function FallbackStages(inp: Inputs, edgeCount: nat, baseline: Score): Refinement
    requires FrameHasRings(inp.fr)
  {
    if baseline.Fin? then
      var h := FallbackRun(RotationScores(inp, FallbackAngles, Some(500), 50.0, 0.03), baseline.v, |FallbackAngles|);
      if h.index.Some? then
        Refinement(RotateFrame(inp.fr, inp.trig(FallbackAngles[h.index.value]), Centre(inp.bbox)),
                   FallbackRotation(FallbackAngles[h.index.value]))
      else ForcedStage(inp, edgeCount)
    else ForcedStage(inp, edgeCount)
  }

  /**
   * Lines 230-644 as intended: an exhausted search returns the input frame (line 644). As
   * written, the format specification at line 642 raises first; see `RefineAsWritten`.
   */
  function RefineSpec(inp: Inputs): Refinement
    requires FrameHasRings(inp.fr)
  {
    var edges := EdgeSample(inp.fr, None);
    if |edges| == 0 then Refinement(inp.fr, NoShapefileEdges)
    else if inp.imageEdges == 0 then Refinement(inp.fr, NoImageEdges)
    else
      var baseline := Baseline(inp, |edges|);
      var coarse := CoarseOf(inp, edges, baseline);
      if coarse.best.Some? && coarse.score.Fin? then FineStage(inp, CoarseGrid(inp)[coarse.best.value], coarse.score.v)
      else FallbackStages(inp, |edges|, baseline)
  }

  /** One rotation of lines 578-590 or 612-622: rotated, resampled and scored. */
  method ScoreRotation(inp: Inputs, angles: seq<real>, i: nat, nPoints: Option<nat>, tol: real, threshold: NonNeg)
    returns (x: Option<real>)
    requires FrameHasRings(inp.fr) && i < |angles|
    ensures x == RotationScores(inp, angles, nPoints, tol, threshold)[i]
  {
    var rotated := RotateFrame(inp.fr, inp.trig(angles[i]), Centre(inp.bbox));
    var sample := FrameEdgeSample(rotated, nPoints);
    x := None;
    if |sample| > 0 {
      var ev := Evaluate(Distances(inp.nearest, sample), tol, threshold);
      if ev.Some? {
        x := Some(ev.value.combined);
      }
    }
  }

  /** Lines 578-597: each fallback angle rotated, resampled with 500 points and scored. */
  method FallbackSearch(inp: Inputs, start: real) returns (h: Held)
    requires FrameHasRings(inp.fr)
    ensures h == FallbackRun(RotationScores(inp, FallbackAngles, Some(500), 50.0, 0.03), start, |FallbackAngles|)
  {
    ghost var xs := RotationScores(inp, FallbackAngles, Some(500), 50.0, 0.03);
    h := Held(None, start);
    for i := 0 to |FallbackAngles|
      invariant h == FallbackRun(xs, start, i)
    {
      var x := ScoreRotation(inp, FallbackAngles, i, Some(500), 50.0, 0.03);
      if x.Some? && x.value < h.score * FallbackSlack {
        h := Held(Some(i), x.value);
      }
    }
  }

  /** Lines 612-626: every forced angle rotated, resampled and scored, the strict minimum kept. */
  method ForcedSearch(inp: Inputs, edgeCount: nat) returns (p: Pick)
    requires FrameHasRings(inp.fr)
    ensures p == MinRun(RotationScores(inp, ForcedAngles(inp.ah), Some(MinNat(1000, edgeCount)), 100.0, 0.01), Inf, |ForcedAngles(inp.ah)|)
  {
    var angles := ForcedAngles(inp.ah);
    ghost var xs := RotationScores(inp, angles, Some(MinNat(1000, edgeCount)), 100.0, 0.01);
    p := Pick(None, Inf);
    for i := 0 to |angles|
      invariant p == MinRun(xs, Inf, i)
    {
      var x := ScoreRotation(inp, angles, i, Some(MinNat(1000, edgeCount)), 100.0, 0.01);
      if x.Some? && Below(x.value, p.score) {
        p := Pick(Some(i), Fin(x.value));
      }
    }
  }

  /** Lines 276-291. */
  method BaselineScore(inp: Inputs, edgeCount: nat) returns (baseline: Score)
    requires FrameHasRings(inp.fr)
    ensures baseline == Baseline(inp, edgeCount)
  {
    var sample := FrameEdgeSample(inp.fr, Some(MinNat(1000, edgeCount)));
    baseline := Inf;
    if |sample| > 0 {
      var ev := Evaluate(Distances(inp.nearest, sample), 30.0, 0.05);
      if ev.Some? {
        baseline := Fin(ev.value.combined);
      }
    }
  }

  /** Lines 475-571. */
  method RunFineStage(inp: Inputs, best: Candidate, score: real) returns (r: Refinement)
    requires FrameHasRings(inp.fr)
    ensures r == FineStage(inp, best, score)
  {
    var c := Centre(inp.bbox);
    var bestFrame := CandidateFrame(inp.fr, best, c);
    r := Refinement(bestFrame, Refined(best, None));
    if score < FineGate {
      var sample := FrameEdgeSample(bestFrame, Some(2000));
      var s2 := Search(sample, c, inp.nearest, FineTol(inp.ah), FineThreshold(inp.ah));
      var ks := FineGrid(inp, best);
      var p := FineSearch(s2, ks, score);
      if p.index.Some? {
        r := Refinement(CandidateFrame(bestFrame, ks[p.index.value], c), Refined(best, Some(ks[p.index.value])));
      }
    }
  }

  /** Lines 574-641, and `Unaligned` where line 644 would return the input frame. */
  method RunFallbackStages(inp: Inputs, edgeCount: nat, baseline: Score) returns (r: Refinement)
    requires FrameHasRings(inp.fr)
    ensures r == FallbackStages(inp, edgeCount, baseline)
  {
    var c := Centre(inp.bbox);
    if baseline.Fin? {
      var h := FallbackSearch(inp, baseline.v);
      if h.index.Some? {
        var a := FallbackAngles[h.index.value];
        return Refinement(RotateFrame(inp.fr, inp.trig(a), c), FallbackRotation(a));
      }
    }
    var p := ForcedSearch(inp, edgeCount);
    if p.index.Some? {
      var a := ForcedAngles(inp.ah)[p.index.value];
      return Refinement(RotateFrame(inp.fr, inp.trig(a), c), ForcedRotation(a));
    }
    return Refinement(inp.fr, Unaligned);
  }

  /**
   * `refine_alignment_with_edge_matching` as written: `None` where the first edge extraction
   * (line 249) raises on a geometry that is not a polygon, and where every stage failed, since
   * line 642 then formats the baseline with the format specification
   * `.2f if baseline_score < float('inf') else 'N/A'`, which `float.__format__` refuses with
   * a ValueError for every value.
   */
  function RefineAsWritten(inp: Inputs): Option<Refinement> {
    if !FrameHasRings(inp.fr) || MissingRaises(inp) then None
    else
      var r := RefineSpec(inp);
      if r.outcome.Unaligned? then None else Some(r)
  }

  /**
   * Past the early returns of lines 251-262 every path maps the whole frame at least once:
   * the accepted coarse candidate (lines 428-431), the first fallback angle (lines 582-583)
   * or the first forced angle (lines 620-621). `rotate(None, ...)` raises there, so a row
   * without a geometry, which the edge extraction skips, makes the function raise.
   */
  predicate MissingRaises(inp: Inputs) {
    FrameHasRings(inp.fr) && |EdgeSample(inp.fr, None)| > 0 && inp.imageEdges > 0 && HasMissing(inp.fr)
  }

  /** Lines 230-644 as written; `None` where the function raises. */
  method RefineAlignmentWithEdgeMatching(inp: Inputs) returns (r: Option<Refinement>)
    ensures r.None? <==> !FrameHasRings(inp.fr) || MissingRaises(inp) || RefineSpec(inp).outcome.Unaligned?
    ensures r.Some? ==> r.value == RefineSpec(inp)
    ensures r == RefineAsWritten(inp)
  {
    var extracted := GeoAlign.ExtractShapefileEdgePoints(GeoAlign.Geoms(inp.fr), None);
    if extracted.None? {
      return None;
    }
    var edges := extracted.value;
    if |edges| == 0 {
      return Some(Refinement(inp.fr, NoShapefileEdges));
    }
    if inp.imageEdges == 0 {
      return Some(Refinement(inp.fr, NoImageEdges));
    }
    if HasMissing(inp.fr) {
      // the first whole-frame transform on every remaining path raises on the `None` row
      return None;
    }
    var refined := RunStages(inp, edges);
    if refined.outcome.Unaligned? {
      // line 642 raises before line 644 can return the input frame
      return None;
    }
    return Some(refined);
  }

  /** Lines 276-644: the baseline, the coarse grid, then the fine stage or the fallback stages. */
  method RunStages(inp: Inputs, edges: seq<Pt>) returns (refined: Refinement)
    requires FrameHasRings(inp.fr) && edges == EdgeSample(inp.fr, None)
    requires |edges| > 0 && inp.imageEdges > 0
    ensures refined == RefineSpec(inp)
  {
    var baseline := BaselineScore(inp, |edges|);
    var s := CoarseSearchOf(inp, edges);
    var coarse := CoarseSearch(s, CoarseGrid(inp), baseline, inp.ah);
    if coarse.best.Some? && coarse.score.Fin? {
      refined := RunFineStage(inp, CoarseGrid(inp)[coarse.best.value], coarse.score.v);
    } else {
      refined := RunFallbackStages(inp, |edges|, baseline);
    }
  }

  /**
   * The callers' `try`/`except` around the refinement (`backend/data_processing.py`): a raise
   * keeps the frame as it was, otherwise the refined frame replaces it. The raise at line 642
   * is therefore invisible to the callers: they keep the frame the intended line 644 returns.
   * A row without a geometry is not: the frame stays unrefined.
   */
  function RefineOrKeep(inp: Inputs): (out: Frame)
    ensures SameRows(out, inp.fr)
    ensures !FrameHasRings(inp.fr) || MissingRaises(inp) ==> out == inp.fr
    ensures FrameHasRings(inp.fr) && !MissingRaises(inp) ==> out == RefineSpec(inp).frame
  {
    var r := RefineAsWritten(inp);
    if r.Some? then
      RefineKeepsRows(inp);
      r.value.frame
    else
      assert FrameHasRings(inp.fr) && !MissingRaises(inp) ==> RefineSpec(inp).frame == inp.fr by {
        if FrameHasRings(inp.fr) && !MissingRaises(inp) {
          RefineEarlyReturns(inp);
        }
      }
      inp.fr
  }

  /** Every path returns a frame with the same rows, columns and CRS as the input. */
  lemma RefineKeepsRows(inp: Inputs)
    requires FrameHasRings(inp.fr)
    ensures var r := RefineSpec(inp);
      |r.frame.rows| == |inp.fr.rows| && r.frame.crs == inp.fr.crs
      && forall i :: 0 <= i < |inp.fr.rows| ==> r.frame.rows[i].props == inp.fr.rows[i].props
  {
    var edges := EdgeSample(inp.fr, None);
    if |edges| > 0 && inp.imageEdges != 0 {
      var baseline := Baseline(inp, |edges|);
      var coarse := CoarseOf(inp, edges, baseline);
      if coarse.best.Some? && coarse.score.Fin? {
        FineStageKeepsRows(inp, CoarseGrid(inp)[coarse.best.value], coarse.score.v);
      } else {
        FallbackKeepsRows(inp, |edges|, baseline);
      }
    }
  }

  /** `out` has the rows, properties and CRS of `fr`. */
  predicate SameRows(out: Frame, fr: Frame) {
    |out.rows| == |fr.rows| && out.crs == fr.crs
    && forall i :: 0 <= i < |fr.rows| ==> out.rows[i].props == fr.rows[i].props
  }

  lemma FineStageKeepsRows(inp: Inputs, best: Candidate, score: real)
    requires FrameHasRings(inp.fr)
    ensures SameRows(FineStage(inp, best, score).frame, inp.fr)
  {
    var c := Centre(inp.bbox);
    var bestFrame := CandidateFrame(inp.fr, best, c);
    assert SameRows(bestFrame, inp.fr);
    if score < FineGate {
      var ks := FineGrid(inp, best);
      var p := MinRun(Combined(EvalAll(FineSearchOf(inp, best), ks)), Fin(score), |ks|);
      if p.index.Some? {
        assert SameRows(CandidateFrame(bestFrame, ks[p.index.value], c), bestFrame);
      }
    }
  }

  lemma ForcedKeepsRows(inp: Inputs, edgeCount: nat)
    requires FrameHasRings(inp.fr)
    ensures SameRows(ForcedStage(inp, edgeCount).frame, inp.fr)
  {
    var angles := ForcedAngles(inp.ah);
    var p := MinRun(RotationScores(inp, angles, Some(MinNat(1000, edgeCount)), 100.0, 0.01), Inf, |angles|);
    if p.index.Some? {
      assert SameRows(RotateFrame(inp.fr, inp.trig(angles[p.index.value]), Centre(inp.bbox)), inp.fr);
    }
  }

  lemma FallbackKeepsRows(inp: Inputs, edgeCount: nat, baseline: Score)
    requires FrameHasRings(inp.fr)
    ensures SameRows(FallbackStages(inp, edgeCount, baseline).frame, inp.fr)
  {
    ForcedKeepsRows(inp, edgeCount);
    if baseline.Fin? {
      var h := FallbackRun(RotationScores(inp, FallbackAngles, Some(500), 50.0, 0.03), baseline.v, |FallbackAngles|);
      if h.index.Some? {
        assert SameRows(RotateFrame(inp.fr, inp.trig(FallbackAngles[h.index.value]), Centre(inp.bbox)), inp.fr);
      }
    }
  }

  /**
   * Lines 251-262: with no ring coordinates or no image edges the input frame comes back
   * unchanged. When every stage fails, the intended line 644 returns it too, but as written
   * line 642 raises there, so no unaligned result ever comes back; past the early returns a
   * row without a geometry raises as well.
   */
  lemma RefineEarlyReturns(inp: Inputs)
    requires FrameHasRings(inp.fr)
    ensures |EdgeSample(inp.fr, None)| == 0 ==> RefineSpec(inp) == Refinement(inp.fr, NoShapefileEdges)
    ensures |EdgeSample(inp.fr, None)| > 0 && inp.imageEdges == 0 ==> RefineSpec(inp) == Refinement(inp.fr, NoImageEdges)
    ensures RefineSpec(inp).outcome.Unaligned? ==> RefineSpec(inp).frame == inp.fr
    ensures RefineAsWritten(inp).None? <==> RefineSpec(inp).outcome.Unaligned? || MissingRaises(inp)
    ensures RefineAsWritten(inp).Some? ==> !RefineAsWritten(inp).value.outcome.Unaligned?
  {
  }

  /**
   * An image whose edges are all 100 pixels or more from every transformed point: no stage
   * scores, so the intended function returns the input frame unaligned, and the function as
   * written raises at line 642.
   */
  lemma NoMatchUnaligned(inp: Inputs)
    requires FrameHasRings(inp.fr) && |EdgeSample(inp.fr, None)| > 0 && inp.imageEdges > 0
    requires forall p :: inp.nearest(p) >= 100.0
    ensures RefineSpec(inp) == Refinement(inp.fr, Unaligned)
    ensures RefineAsWritten(inp) == None
  {
    var edges := EdgeSample(inp.fr, None);
    FarBaseline(inp, |edges|);
    FarCoarse(inp, edges);
    FarForced(inp, |edges|);
  }

  /** Lines 276-291: with every distance 30 or more, the baseline is infinite. */
  lemma FarBaseline(inp: Inputs, edgeCount: nat)
    requires FrameHasRings(inp.fr) && forall p :: inp.nearest(p) >= 30.0
    ensures Baseline(inp, edgeCount) == Inf
  {
    var sample := EdgeSample(inp.fr, Some(MinNat(1000, edgeCount)));
    if |sample| > 0 {
      FarEvaluateNone(Distances(inp.nearest, sample), 30.0, 0.05);
    }
  }

  /** Lines 355-464: with every distance 50 or more, the coarse grid holds no best. */
  lemma FarCoarse(inp: Inputs, edges: seq<Pt>)
    requires FrameHasRings(inp.fr) && forall p :: inp.nearest(p) >= 50.0
    ensures CoarseOf(inp, edges, Inf).best.None?
  {
    var s := CoarseSearchOf(inp, edges);
    FarCandidatesUnscored(s, CoarseGrid(inp));
    CoarseBestFacts(EvalAll(s, CoarseGrid(inp)), Inf, |s.sample|, inp.ah, |CoarseGrid(inp)|);
  }

  /** Lines 603-644: with every distance 100 or more, no forced rotation scores. */
  lemma FarForced(inp: Inputs, edgeCount: nat)
    requires FrameHasRings(inp.fr) && forall p :: inp.nearest(p) >= 100.0
    ensures ForcedStage(inp, edgeCount) == Refinement(inp.fr, Unaligned)
  {
    var angles := ForcedAngles(inp.ah);
    var nPoints := Some(MinNat(1000, edgeCount));
    var xs := RotationScores(inp, angles, nPoints, 100.0, 0.01);
    forall i | 0 <= i < |angles|
      ensures xs[i].None?
    {
      var rs := EdgeSample(RotateFrame(inp.fr, inp.trig(angles[i]), Centre(inp.bbox)), nPoints);
      if |rs| > 0 {
        FarEvaluateNone(Distances(inp.nearest, rs), 100.0, 0.01);
      }
      assert RotationEval(inp, angles[i], nPoints, 100.0, 0.01).None?;
    }
    MinRunFacts(xs, Inf, |angles|);
  }


  /** The frame the fine stage returns: the coarse best's frame, moved again by the fine candidate when one was applied. */
  lemma FineStageFrame(inp: Inputs, best: Candidate, score: real)
    requires FrameHasRings(inp.fr)
    ensures var r := FineStage(inp, best, score); var c := Centre(inp.bbox);
      r.outcome.Refined? && r.outcome.coarse == best
      && (r.outcome.fine.None? ==> r.frame == CandidateFrame(inp.fr, best, c))
      && (r.outcome.fine.Some? ==>
            (score < FineGate && r.outcome.fine.value in FineGrid(inp, best)
             && r.frame == CandidateFrame(CandidateFrame(inp.fr, best, c), r.outcome.fine.value, c)))
  {
  }

  /** The frame the fallback stages return: rotated by one of the stage's angles, or the input itself. */
  lemma FallbackStagesFrame(inp: Inputs, edgeCount: nat, baseline: Score)
    requires FrameHasRings(inp.fr)
    ensures var r := FallbackStages(inp, edgeCount, baseline); var c := Centre(inp.bbox);
      (r.outcome.FallbackRotation? || r.outcome.ForcedRotation? || r.outcome.Unaligned?)
      && (r.outcome.FallbackRotation? ==>
            (baseline.Fin? && r.outcome.angle in FallbackAngles
             && r.frame == RotateFrame(inp.fr, inp.trig(r.outcome.angle), c)))
      && (r.outcome.ForcedRotation? ==>
            (r.outcome.angle in ForcedAngles(inp.ah) && r.frame == RotateFrame(inp.fr, inp.trig(r.outcome.angle), c)))
      && (r.outcome.Unaligned? ==> r.frame == inp.fr)
  {
  }

  /**
   * What each outcome means: a grid result is the coarse best's frame, moved again by a
   * fine candidate only below the fine gate; a fallback or forced result is the frame
   * rotated by one of that stage's angles, reached only when the coarse grid held nothing,
   * the first fallback only with a finite baseline.
   */
  lemma RefineOutcomes(inp: Inputs)
    requires FrameHasRings(inp.fr)
    ensures var r := RefineSpec(inp); var edges := EdgeSample(inp.fr, None);
      var c := Centre(inp.bbox);
      (r.outcome.Refined? ==>
         |edges| > 0 && inp.imageEdges > 0
         && var coarse := CoarseOf(inp, edges, Baseline(inp, |edges|));
         coarse.best.Some? && coarse.score.Fin? && r.outcome.coarse == CoarseGrid(inp)[coarse.best.value]
         && (r.outcome.fine.None? ==> r.frame == CandidateFrame(inp.fr, r.outcome.coarse, c))
         && (r.outcome.fine.Some? ==>
               coarse.score.v < FineGate
               && r.frame == CandidateFrame(CandidateFrame(inp.fr, r.outcome.coarse, c), r.outcome.fine.value, c)))
      && (r.outcome.FallbackRotation? ==>
            CoarseOf(inp, edges, Baseline(inp, |edges|)).best.None?
            && Baseline(inp, |edges|).Fin? && r.outcome.angle in FallbackAngles
            && r.frame == RotateFrame(inp.fr, inp.trig(r.outcome.angle), c))
      && (r.outcome.ForcedRotation? ==>
            CoarseOf(inp, edges, Baseline(inp, |edges|)).best.None?
            && r.outcome.angle in ForcedAngles(inp.ah)
            && r.frame == RotateFrame(inp.fr, inp.trig(r.outcome.angle), c))
  {
    var edges := EdgeSample(inp.fr, None);
    if |edges| > 0 && inp.imageEdges > 0 {
      var baseline := Baseline(inp, |edges|);
      var s := CoarseSearchOf(inp, edges);
      var coarse := CoarseOf(inp, edges, baseline);
      CoarseBestFacts(EvalAll(s, CoarseGrid(inp)), baseline, |s.sample|, inp.ah, |CoarseGrid(inp)|);
      if coarse.best.Some? && coarse.score.Fin? {
        FineStageFrame(inp, CoarseGrid(inp)[coarse.best.value], coarse.score.v);
      } else {
        FallbackStagesFrame(inp, |edges|, baseline);
      }
    }
  }
}

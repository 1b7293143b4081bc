/**
 * The search inside `refine_alignment_with_edge_matching` (backend/utils/geo_align.py,
 * lines 230-644): how one transformed sample is scored against the image edges, the
 * rotate-scale-translate candidates and their grids, and the four ways the candidates
 * are walked (the coarse grid with its early exit, the fine grid, the small fallback
 * rotations and the forced rotations). The nearest-edge distance of the KD tree and the
 * cosine and sine of an angle are parameters.
 */
module AlignSearch {
  import opened Wrappers
  import opened Geometry

  /** A score that may still be `float('inf')`. */
  datatype Score = Inf | Fin(v: real)

  /** `x < s` for a score that may be infinite. */
  predicate Below(x: real, s: Score) {
    s.Inf? || x < s.v
  }

  /** `s * 2.0` on a score that may be infinite. */
  function Twice(s: Score): Score {
    if s.Inf? then Inf else Fin(s.v * 2.0)
  }

  type NonNeg = r: real | 0.0 <= r

  // ---------------------------------------------------------------------------------
  // Scoring one sample
  // ---------------------------------------------------------------------------------

  /** `distances[distances < tol]`. */
  function Valid(ds: seq<real>, tol: real): (vs: seq<real>)
    ensures |vs| <= |ds|
    ensures forall i :: 0 <= i < |vs| ==> vs[i] < tol
  {
    if |ds| == 0 then []
    else Valid(ds[..|ds| - 1], tol) + (if ds[|ds| - 1] < tol then [ds[|ds| - 1]] else [])
  }

  function Sum(xs: seq<real>): real {
    if |xs| == 0 then 0.0 else Sum(xs[..|xs| - 1]) + xs[|xs| - 1]
  }

  /** What a scored sample reports: the combined score, the match ratio and the match count. */
  datatype Eval = Eval(combined: real, ratio: real, matches: nat)

  /**
   * The scoring repeated at lines 281-287, 400-405, 523-530, 586-591 and 621-626: enough
   * matches below the tolerance, then the mean match distance divided by the match ratio
   * plus 0.1.
   */
  function Evaluate(ds: seq<real>, tol: real, threshold: NonNeg): (r: Option<Eval>)
    ensures r.Some? <==> |Valid(ds, tol)| as real > |ds| as real * threshold
    ensures r.Some? ==>
      (r.value.matches == |Valid(ds, tol)| && 0 < r.value.matches <= |ds|
       && r.value.ratio == r.value.matches as real / |ds| as real)
  {
    var vs := Valid(ds, tol);
    if |vs| as real > |ds| as real * threshold then
      var mean := Sum(vs) / |vs| as real;
      var ratio := |vs| as real / |ds| as real;
      Some(Eval(mean / (ratio + 0.1), ratio, |vs|))
    else None
  }

  /** With every distance at the tolerance or beyond, nothing matches. */
  lemma {:induction false} FarValidEmpty(ds: seq<real>, tol: real)
    requires forall i :: 0 <= i < |ds| ==> ds[i] >= tol
    ensures Valid(ds, tol) == []
  {
    if |ds| > 0 {
      FarValidEmpty(ds[..|ds| - 1], tol);
    }
  }

  /** ... and then the sample is not scored, whatever the threshold. */
  lemma FarEvaluateNone(ds: seq<real>, tol: real, threshold: NonNeg)
    requires forall i :: 0 <= i < |ds| ==> ds[i] >= tol
    ensures Evaluate(ds, tol, threshold) == None
  {
    FarValidEmpty(ds, tol);
  }

  /** A tree whose every distance is at the stage's tolerance or beyond scores no candidate. */
  lemma FarCandidatesUnscored(s: Search, ks: seq<Candidate>)
    requires forall p :: s.nearest(p) >= s.tol
    ensures forall i :: 0 <= i < |ks| ==> EvalAll(s, ks)[i].None?
  {
    forall i | 0 <= i < |ks|
      ensures EvalAll(s, ks)[i].None?
    {
      FarEvaluateNone(Distances(s.nearest, MapPts(p => CandidatePoint(ks[i], s.centre, p), s.sample)), s.tol, s.threshold);
    }
  }

  lemma {:induction false} SumBounds(xs: seq<real>, tol: real)
    requires forall i :: 0 <= i < |xs| ==> 0.0 <= xs[i] < tol
    ensures 0.0 <= Sum(xs) && (|xs| > 0 ==> Sum(xs) < |xs| as real * tol)
  {
    if |xs| > 0 {
      SumBounds(xs[..|xs| - 1], tol);
    }
  }

  lemma {:induction false} ValidNonNeg(ds: seq<real>, tol: real)
    requires forall i :: 0 <= i < |ds| ==> ds[i] >= 0.0
    ensures forall i :: 0 <= i < |Valid(ds, tol)| ==> Valid(ds, tol)[i] >= 0.0
  {
    if |ds| > 0 {
      ValidNonNeg(ds[..|ds| - 1], tol);
    }
  }

  lemma MeanBelow(sum: real, n: real, tol: real)
    requires n > 0.0 && 0.0 <= sum < n * tol
    ensures 0.0 <= sum / n < tol
  {
    assert (sum / n) * n == sum;
  }

  lemma QuotientBelow(mean: real, ratio: real, tol: real)
    requires 0.0 <= mean < tol && 0.0 < ratio
    ensures 0.0 <= mean / (ratio + 0.1) < 10.0 * tol
  {
    assert mean / (ratio + 0.1) <= mean / 0.1 by {
      assert (mean / (ratio + 0.1)) * (ratio + 0.1) == mean;
      assert (mean / (ratio + 0.1)) * 0.1 <= mean;
    }
  }

  /**
   * A reported match ratio lies in `(0, 1]`, and with non-negative distances the combined
   * score lies in `[0, 10 * tol)`: the mean of the matches is below the tolerance and the
   * ratio adds at least 0.1 to the divisor.
   */
  lemma EvaluateBounds(ds: seq<real>, tol: real, threshold: NonNeg)
    requires forall i :: 0 <= i < |ds| ==> ds[i] >= 0.0
    ensures var r := Evaluate(ds, tol, threshold);
      r.Some? ==> 0.0 < r.value.ratio <= 1.0 && 0.0 <= r.value.combined < 10.0 * tol
  {
    if Evaluate(ds, tol, threshold).Some? {
      ValidNonNeg(ds, tol);
      CombinedBounds(Valid(ds, tol), |ds|, tol);
    }
  }

  lemma CombinedBounds(vs: seq<real>, n: nat, tol: real)
    requires 0 < |vs| <= n && forall i :: 0 <= i < |vs| ==> 0.0 <= vs[i] < tol
    ensures var ratio := |vs| as real / n as real;
      0.0 < ratio <= 1.0 && 0.0 <= (Sum(vs) / |vs| as real) / (ratio + 0.1) < 10.0 * tol
  {
    SumBounds(vs, tol);
    MeanBelow(Sum(vs), |vs| as real, tol);
    var ratio := |vs| as real / n as real;
    assert ratio <= 1.0 by {
      assert ratio * n as real == |vs| as real;
    }
    QuotientBelow(Sum(vs) / |vs| as real, ratio, tol);
  }

  // ---------------------------------------------------------------------------------
  // Candidates
  // ---------------------------------------------------------------------------------

  /** An angle in degrees with the cosine and sine numpy computes for it. */
  datatype Rotation = Rotation(angle: real, cos: real, sin: real)

  /** One grid point of lines 355-365: a rotation, two scales and a shift. */
  datatype Candidate = Candidate(rot: Rotation, sx: real, sy: real, dx: real, dy: real)

  /** Rotation about `c` (lines 373-376; `shapely.affinity.rotate` with that origin). */
  function RotatePoint(r: Rotation, c: Pt, p: Pt): Pt {
    var xr := p.x - c.x;
    var yr := p.y - c.y;
    Pt(xr * r.cos - yr * r.sin + c.x, xr * r.sin + yr * r.cos + c.y)
  }

  /** Lines 370-383: rotate about the centre, scale about the centre, then translate. */
  function CandidatePoint(k: Candidate, c: Pt, p: Pt): Pt {
    var q := RotatePoint(k.rot, c, p);
    Pt((q.x - c.x) * k.sx + c.x + k.dx, (q.y - c.y) * k.sy + c.y + k.dy)
  }

  /** A zero rotation with unit scales and no shift leaves every point where it is. */
  lemma CandidateIdentity(c: Pt, p: Pt, angle: real)
    ensures CandidatePoint(Candidate(Rotation(angle, 1.0, 0.0), 1.0, 1.0, 0.0, 0.0), c, p) == p
  {
  }

  /** The fallback and forced rotations are candidates with unit scales and no shift. */
  lemma RotationIsCandidate(r: Rotation, c: Pt, p: Pt)
    ensures RotatePoint(r, c, p) == CandidatePoint(Candidate(r, 1.0, 1.0, 0.0, 0.0), c, p)
  {
  }

  /** The KD-tree query of every point of a sample. */
  function Distances(nearest: Pt -> real, pts: seq<Pt>): (ds: seq<real>)
    ensures |ds| == |pts| && forall i :: 0 <= i < |pts| ==> ds[i] == nearest(pts[i])
  {
    seq(|pts|, i requires 0 <= i < |pts| => nearest(pts[i]))
  }

  /** What one stage scores with: its sample, the bbox centre, the tree and the two cut-offs. */
  datatype Search = Search(sample: seq<Pt>, centre: Pt, nearest: Pt -> real, tol: real, threshold: NonNeg)

  /** Lines 367-405 (and 508-530): the candidate applied to the sample, then scored. */
  function EvalCandidate(s: Search, k: Candidate): Option<Eval> {
    Evaluate(Distances(s.nearest, MapPts(p => CandidatePoint(k, s.centre, p), s.sample)), s.tol, s.threshold)
  }

  function EvalAll(s: Search, ks: seq<Candidate>): (evs: seq<Option<Eval>>)
    ensures |evs| == |ks| && forall i :: 0 <= i < |ks| ==> evs[i] == EvalCandidate(s, ks[i])
  {
    seq(|ks|, i requires 0 <= i < |ks| => EvalCandidate(s, ks[i]))
  }

  // ---------------------------------------------------------------------------------
  // Grids
  // ---------------------------------------------------------------------------------

  /** `np.linspace(lo, hi, n)`. */
  function Linspace(lo: real, hi: real, n: nat): (xs: seq<real>)
    ensures |xs| == n
  {
    seq(n, k requires 0 <= k < n => if n == 1 then lo else lo + (k as real) * (hi - lo) / ((n - 1) as real))
  }

  /** The evenly spaced values run from `lo` to `hi`. */
  lemma LinspaceEnds(lo: real, hi: real, n: nat)
    requires n >= 2
    ensures Linspace(lo, hi, n)[0] == lo && Linspace(lo, hi, n)[n - 1] == hi
  {
    var d := (n - 1) as real;
    assert ((n - 1) as real) * (hi - lo) / d == hi - lo;
  }

  /** The five ranges of one grid, outermost first. */
  datatype Ranges = Ranges(angles: seq<real>, sxs: seq<real>, sys: seq<real>, dxs: seq<real>, dys: seq<real>)

  /** Lines 320-346: the coarse ranges for a bbox of `w` by `h` pixels. */
  function CoarseRanges(ah: bool, w: real, h: real): Ranges {
    if ah then
      Ranges(Linspace(-180.0, 180.0, 361), Linspace(0.5, 1.5, 15), Linspace(0.5, 1.5, 15),
             Linspace(-w * 0.5, w * 0.5, 15), Linspace(-h * 0.5, h * 0.5, 15))
    else
      Ranges(Linspace(-180.0, 180.0, 73), Linspace(0.7, 1.3, 11), Linspace(0.7, 1.3, 11),
             Linspace(-w * 0.3, w * 0.3, 11), Linspace(-h * 0.3, h * 0.3, 11))
  }

  /** Lines 485-496: the fine ranges around the best coarse angle. */
  function FineRanges(ah: bool, w: real, h: real, bestAngle: real): Ranges {
    if ah then
      Ranges(Linspace(bestAngle - 3.0, bestAngle + 3.0, 7), Linspace(0.95, 1.05, 7), Linspace(0.95, 1.05, 7),
             Linspace(-w * 0.05, w * 0.05, 7), Linspace(-h * 0.05, h * 0.05, 7))
    else
      Ranges(Linspace(bestAngle - 2.0, bestAngle + 2.0, 5), Linspace(0.98, 1.02, 5), Linspace(0.98, 1.02, 5),
             Linspace(-w * 0.02, w * 0.02, 5), Linspace(-h * 0.02, h * 0.02, 5))
  }

  function DyLoop(r: Rotation, sx: real, sy: real, dx: real, dys: seq<real>): (ks: seq<Candidate>)
    ensures |ks| == |dys|
  {
    seq(|dys|, i requires 0 <= i < |dys| => Candidate(r, sx, sy, dx, dys[i]))
  }

  function DxLoop(r: Rotation, sx: real, sy: real, dxs: seq<real>, dys: seq<real>): (ks: seq<Candidate>)
    ensures |ks| == |dxs| * |dys|
  {
    if |dxs| == 0 then [] else DyLoop(r, sx, sy, dxs[0], dys) + DxLoop(r, sx, sy, dxs[1..], dys)
  }

  function SyLoop(r: Rotation, sx: real, sys: seq<real>, dxs: seq<real>, dys: seq<real>): (ks: seq<Candidate>)
    ensures |ks| == |sys| * (|dxs| * |dys|)
  {
    if |sys| == 0 then [] else DxLoop(r, sx, sys[0], dxs, dys) + SyLoop(r, sx, sys[1..], dxs, dys)
  }

  function SxLoop(r: Rotation, sxs: seq<real>, sys: seq<real>, dxs: seq<real>, dys: seq<real>): (ks: seq<Candidate>)
    ensures |ks| == |sxs| * (|sys| * (|dxs| * |dys|))
  {
    if |sxs| == 0 then [] else SyLoop(r, sxs[0], sys, dxs, dys) + SxLoop(r, sxs[1..], sys, dxs, dys)
  }

  function AngleLoop(trig: real -> Rotation, angles: seq<real>, sxs: seq<real>, sys: seq<real>, dxs: seq<real>, dys: seq<real>): (ks: seq<Candidate>)
    ensures |ks| == |angles| * (|sxs| * (|sys| * (|dxs| * |dys|)))
  {
    if |angles| == 0 then []
    else SxLoop(trig(angles[0]), sxs, sys, dxs, dys) + AngleLoop(trig, angles[1..], sxs, sys, dxs, dys)
  }

  /** The five nested loops walked in order: the last range varies fastest. */
  function Grid(trig: real -> Rotation, r: Ranges): seq<Candidate> {
    AngleLoop(trig, r.angles, r.sxs, r.sys, r.dxs, r.dys)
  }

  /**
   * Line 350: the coarse grid has `73 * 11^4` candidates for the contiguous states and
   * `361 * 15^4` for Alaska and Hawaii; the fine grid has `5^5` or `7^5`.
   */
  lemma GridSizes(trig: real -> Rotation, ah: bool, w: real, h: real, a: real)
    ensures |Grid(trig, CoarseRanges(ah, w, h))| == if ah then 361 * 15 * 15 * 15 * 15 else 73 * 11 * 11 * 11 * 11
    ensures |Grid(trig, FineRanges(ah, w, h, a))| == if ah then 7 * 7 * 7 * 7 * 7 else 5 * 5 * 5 * 5 * 5
  {
  }

  /** Entry `j` of block `i`, in blocks of `m`, lies inside `n` blocks. */
  lemma BlockBound(i: nat, j: nat, n: nat, m: nat)
    requires i < n && j < m
    ensures i * m + j < n * m
  {
    assert n * m == (i + 1) * m + (n - i - 1) * m;
  }

  /** Past the first block of `m`, entry `j` of block `i` is entry `j` of block `i - 1` of the rest. */
  lemma BlockStep<T>(d: seq<T>, rest: seq<T>, m: nat, i: nat, j: nat)
    requires |d| == m && 0 < i && j < m && (i - 1) * m + j < |rest|
    ensures i * m + j < |d + rest| && (d + rest)[i * m + j] == rest[(i - 1) * m + j]
  {
    assert i * m + j == m + ((i - 1) * m + j);
  }

  /** The `dy` loop runs inside the `dx` loop: candidate `i * |dys| + j` is `(dxs[i], dys[j])`. */
  lemma {:induction false} DxLoopAt(r: Rotation, sx: real, sy: real, dxs: seq<real>, dys: seq<real>, i: nat, j: nat)
    requires i < |dxs| && j < |dys|
    ensures i * |dys| + j < |DxLoop(r, sx, sy, dxs, dys)|
    ensures DxLoop(r, sx, sy, dxs, dys)[i * |dys| + j] == Candidate(r, sx, sy, dxs[i], dys[j])
  {
    BlockBound(i, j, |dxs|, |dys|);
    if i > 0 {
      DxLoopAt(r, sx, sy, dxs[1..], dys, i - 1, j);
      assert i * |dys| + j == |dys| + ((i - 1) * |dys| + j);
    }
  }

  /** The `dx` loop runs inside the `sy` loop: block `i` of the `sy` loop is the `dx` loop at `sys[i]`. */
  lemma {:induction false} SyLoopAt(r: Rotation, sx: real, sys: seq<real>, dxs: seq<real>, dys: seq<real>, i: nat, k: nat)
    requires i < |sys| && k < |dxs| * |dys|
    ensures i * (|dxs| * |dys|) + k < |SyLoop(r, sx, sys, dxs, dys)|
    ensures SyLoop(r, sx, sys, dxs, dys)[i * (|dxs| * |dys|) + k] == DxLoop(r, sx, sys[i], dxs, dys)[k]
  {
    var m := |dxs| * |dys|;
    BlockBound(i, k, |sys|, m);
    if i > 0 {
      SyLoopAt(r, sx, sys[1..], dxs, dys, i - 1, k);
      BlockStep(DxLoop(r, sx, sys[0], dxs, dys), SyLoop(r, sx, sys[1..], dxs, dys), m, i, k);
    }
  }

  /** The `sy` loop runs inside the `sx` loop: block `i` of the `sx` loop is the `sy` loop at `sxs[i]`. */
  lemma {:induction false} SxLoopAt(r: Rotation, sxs: seq<real>, sys: seq<real>, dxs: seq<real>, dys: seq<real>, i: nat, k: nat)
    requires i < |sxs| && k < |sys| * (|dxs| * |dys|)
    ensures i * (|sys| * (|dxs| * |dys|)) + k < |SxLoop(r, sxs, sys, dxs, dys)|
    ensures SxLoop(r, sxs, sys, dxs, dys)[i * (|sys| * (|dxs| * |dys|)) + k] == SyLoop(r, sxs[i], sys, dxs, dys)[k]
  {
    var m := |sys| * (|dxs| * |dys|);
    BlockBound(i, k, |sxs|, m);
    if i > 0 {
      SxLoopAt(r, sxs[1..], sys, dxs, dys, i - 1, k);
      BlockStep(SyLoop(r, sxs[0], sys, dxs, dys), SxLoop(r, sxs[1..], sys, dxs, dys), m, i, k);
    }
  }

  /** The `sx` loop runs inside the angle loop: block `i` of the grid is the `sx` loop at `angles[i]`. */
  lemma {:induction false} AngleLoopAt(trig: real -> Rotation, angles: seq<real>, sxs: seq<real>, sys: seq<real>, dxs: seq<real>, dys: seq<real>, i: nat, k: nat)
    requires i < |angles| && k < |sxs| * (|sys| * (|dxs| * |dys|))
    ensures i * (|sxs| * (|sys| * (|dxs| * |dys|))) + k < |AngleLoop(trig, angles, sxs, sys, dxs, dys)|
    ensures AngleLoop(trig, angles, sxs, sys, dxs, dys)[i * (|sxs| * (|sys| * (|dxs| * |dys|))) + k]
      == SxLoop(trig(angles[i]), sxs, sys, dxs, dys)[k]
  {
    var m := |sxs| * (|sys| * (|dxs| * |dys|));
    BlockBound(i, k, |angles|, m);
    if i > 0 {
      AngleLoopAt(trig, angles[1..], sxs, sys, dxs, dys, i - 1, k);
      BlockStep(SxLoop(trig(angles[0]), sxs, sys, dxs, dys), AngleLoop(trig, angles[1..], sxs, sys, dxs, dys), m, i, k);
    }
  }

  // ---------------------------------------------------------------------------------
  // The coarse walk (lines 355-464)
  // ---------------------------------------------------------------------------------

  function PerfectScore(ah: bool): real {
    if ah then 1.5 else 2.0
  }

  function PerfectRatio(ah: bool): real {
    if ah then 0.5 else 0.4
  }

  /** Lines 407-412. */
  predicate ShouldAccept(ev: Eval, best: Score, baseline: Score, n: nat) {
    Below(ev.combined, best)
    || (best.Inf? && Below(ev.combined, Twice(baseline)))
    || (best.Inf? && baseline.Inf? && ev.matches as real > n as real * 0.05)
  }

  /** The two baseline clauses never add anything: when no score is held yet the first clause already accepts. */
  lemma ShouldAcceptIsImprovement(ev: Eval, best: Score, baseline: Score, n: nat)
    ensures ShouldAccept(ev, best, baseline, n) <==> Below(ev.combined, best)
  {
  }

  /** The best index so far, its score, and whether the perfect test at lines 440-446 fired. */
  datatype Coarse = Coarse(best: Option<nat>, score: Score, stop: bool)

  /** Lines 400-446 for candidate `i`: an accepted score is held, and a perfect one stops the walk. */
  function CoarseStep(st: Coarse, ev: Option<Eval>, i: nat, baseline: Score, n: nat, ah: bool): Coarse {
    if ev.Some? && ShouldAccept(ev.value, st.score, baseline, n) then
      Coarse(Some(i), Fin(ev.value.combined), ev.value.combined < PerfectScore(ah) && ev.value.ratio > PerfectRatio(ah))
    else st
  }

  /** The coarse walk over the first `k` scored candidates; nothing changes once stopped. */
  function CoarseRun(evs: seq<Option<Eval>>, baseline: Score, n: nat, ah: bool, k: nat): (st: Coarse)
    requires k <= |evs|
    ensures st.best.Some? ==> st.best.value < k
  {
    if k == 0 then Coarse(None, Inf, false)
    else
      var st := CoarseRun(evs, baseline, n, ah, k - 1);
      if st.stop then st else CoarseStep(st, evs[k - 1], k - 1, baseline, n, ah)
  }

  /** Once the early exit fires no later candidate changes anything. */
  lemma {:induction false} CoarseStopped(evs: seq<Option<Eval>>, baseline: Score, n: nat, ah: bool, i: nat, k: nat)
    requires i <= k <= |evs| && CoarseRun(evs, baseline, n, ah, i).stop
    ensures CoarseRun(evs, baseline, n, ah, k) == CoarseRun(evs, baseline, n, ah, i)
    decreases k - i
  {
    if i < k {
      CoarseStopped(evs, baseline, n, ah, i, k - 1);
    }
  }

  /** Lines 355-464 with the nested loops walked as one sequence and their shared `early_exit` as the loop guard. */
  method CoarseSearch(s: Search, ks: seq<Candidate>, baseline: Score, ah: bool) returns (st: Coarse)
    ensures st == CoarseRun(EvalAll(s, ks), baseline, |s.sample|, ah, |ks|)
  {
    ghost var evs := EvalAll(s, ks);
    var n := |s.sample|;
    st := Coarse(None, Inf, false);
    var i := 0;
    while i < |ks| && !st.stop
      invariant 0 <= i <= |ks|
      invariant st == CoarseRun(evs, baseline, n, ah, i)
    {
      var ev := EvalCandidate(s, ks[i]);
      assert ev == evs[i];
      CoarseRunStep(evs, baseline, n, ah, i);
      st := CoarseStep(st, ev, i, baseline, n, ah);
      i := i + 1;
    }
    CoarseFinished(evs, baseline, n, ah, i);
  }

  lemma CoarseRunStep(evs: seq<Option<Eval>>, baseline: Score, n: nat, ah: bool, i: nat)
    requires i < |evs| && !CoarseRun(evs, baseline, n, ah, i).stop
    ensures CoarseRun(evs, baseline, n, ah, i + 1) == CoarseStep(CoarseRun(evs, baseline, n, ah, i), evs[i], i, baseline, n, ah)
  {
  }

  lemma CoarseFinished(evs: seq<Option<Eval>>, baseline: Score, n: nat, ah: bool, i: nat)
    requires i <= |evs| && (i == |evs| || CoarseRun(evs, baseline, n, ah, i).stop)
    ensures CoarseRun(evs, baseline, n, ah, |evs|) == CoarseRun(evs, baseline, n, ah, i)
  {
    if i < |evs| {
      CoarseStopped(evs, baseline, n, ah, i, |evs|);
    }
  }

  /**
   * A best candidate is held exactly when the score is finite; it is a scored candidate
   * whose combined score is the held one, and a stop means that score is below the
   * perfect threshold.
   */
  lemma {:induction false} CoarseBestFacts(evs: seq<Option<Eval>>, baseline: Score, n: nat, ah: bool, k: nat)
    requires k <= |evs|
    ensures var st := CoarseRun(evs, baseline, n, ah, k);
      (st.best.Some? <==> st.score.Fin?)
      && (st.best.Some? ==> evs[st.best.value].Some? && st.score == Fin(evs[st.best.value].value.combined))
      && (st.stop ==> st.best.Some? && st.score.v < PerfectScore(ah))
  {
    if k > 0 {
      CoarseBestFacts(evs, baseline, n, ah, k - 1);
    }
  }

  /** The held score never rises. */
  lemma {:induction false} CoarseMonotone(evs: seq<Option<Eval>>, baseline: Score, n: nat, ah: bool, i: nat, k: nat)
    requires i <= k <= |evs| && CoarseRun(evs, baseline, n, ah, i).score.Fin?
    ensures CoarseRun(evs, baseline, n, ah, k).score.Fin?
    ensures CoarseRun(evs, baseline, n, ah, k).score.v <= CoarseRun(evs, baseline, n, ah, i).score.v
    decreases k - i
  {
    if i < k {
      CoarseMonotone(evs, baseline, n, ah, i, k - 1);
    }
  }

  /** Every candidate scored before the early exit scores at least the final best. */
  lemma CoarseIsMinimum(evs: seq<Option<Eval>>, baseline: Score, n: nat, ah: bool, j: nat, k: nat)
    requires j < k <= |evs| && evs[j].Some? && !CoarseRun(evs, baseline, n, ah, j).stop
    ensures CoarseRun(evs, baseline, n, ah, k).score.Fin?
    ensures CoarseRun(evs, baseline, n, ah, k).score.v <= evs[j].value.combined
  {
    var after := CoarseRun(evs, baseline, n, ah, j + 1);
    assert after.score.Fin? && after.score.v <= evs[j].value.combined;
    CoarseMonotone(evs, baseline, n, ah, j + 1, k);
  }

  /** A stop before `i` would still hold at `i`. */
  lemma NotStoppedBefore(evs: seq<Option<Eval>>, baseline: Score, n: nat, ah: bool, j: nat, i: nat)
    requires j <= i <= |evs| && !CoarseRun(evs, baseline, n, ah, i).stop
    ensures !CoarseRun(evs, baseline, n, ah, j).stop
  {
    if CoarseRun(evs, baseline, n, ah, j).stop {
      CoarseStopped(evs, baseline, n, ah, j, i);
    }
  }

  /** After the final best's own step nothing else is accepted. */
  lemma {:induction false} CoarseSettled(evs: seq<Option<Eval>>, baseline: Score, n: nat, ah: bool, b: nat, k: nat)
    requires b < k <= |evs| && CoarseRun(evs, baseline, n, ah, k).best == Some(b)
    ensures CoarseRun(evs, baseline, n, ah, k) == CoarseRun(evs, baseline, n, ah, b + 1)
    decreases k - b
  {
    if k > b + 1 {
      CoarseSettled(evs, baseline, n, ah, b, k - 1);
    }
  }

  /** Ties keep the earlier candidate: everything scored before the final best scores strictly more. */
  lemma CoarseIsFirstMinimum(evs: seq<Option<Eval>>, baseline: Score, n: nat, ah: bool, j: nat, k: nat)
    requires k <= |evs| && CoarseRun(evs, baseline, n, ah, k).best.Some?
    requires j < CoarseRun(evs, baseline, n, ah, k).best.value && evs[j].Some?
    ensures CoarseRun(evs, baseline, n, ah, k).score.Fin?
    ensures evs[j].value.combined > CoarseRun(evs, baseline, n, ah, k).score.v
  {
    var b := CoarseRun(evs, baseline, n, ah, k).best.value;
    CoarseSettled(evs, baseline, n, ah, b, k);
    var before := CoarseRun(evs, baseline, n, ah, b);
    assert !before.stop && Below(evs[b].value.combined, before.score);
    NotStoppedBefore(evs, baseline, n, ah, j, b);
    CoarseIsMinimum(evs, baseline, n, ah, j, b);
  }

  // ---------------------------------------------------------------------------------
  // Strict-minimum walks: the fine grid (lines 498-545) and the forced rotations (lines 608-631)
  // ---------------------------------------------------------------------------------

  /** The index kept so far and the score it set, or the starting score. */
  datatype Pick = Pick(index: Option<nat>, score: Score)

  /** Keep a candidate only when it scores strictly below the held score. */
  function MinRun(xs: seq<Option<real>>, init: Score, k: nat): (p: Pick)
    requires k <= |xs|
    ensures p.index.Some? ==> p.index.value < k
  {
    if k == 0 then Pick(None, init)
    else
      var p := MinRun(xs, init, k - 1);
      if xs[k - 1].Some? && Below(xs[k - 1].value, p.score) then Pick(Some(k - 1), Fin(xs[k - 1].value)) else p
  }

  /**
   * The kept index scores the held score, strictly below the start; with nothing kept
   * the start is returned.
   */
  lemma {:induction false} MinRunFacts(xs: seq<Option<real>>, init: Score, k: nat)
    requires k <= |xs|
    ensures var p := MinRun(xs, init, k);
      (p.index.None? ==> p.score == init)
      && (p.index.Some? ==>
           (xs[p.index.value].Some? && p.score == Fin(xs[p.index.value].value)
            && Below(xs[p.index.value].value, init)))
  {
    if k > 0 {
      MinRunFacts(xs, init, k - 1);
    }
  }

  /** No scored candidate beats the result. */
  lemma {:induction false} MinRunIsMinimum(xs: seq<Option<real>>, init: Score, k: nat, j: nat)
    requires j < k <= |xs| && xs[j].Some?
    ensures MinRun(xs, init, k).score.Fin? && MinRun(xs, init, k).score.v <= xs[j].value
  {
    if j < k - 1 {
      MinRunIsMinimum(xs, init, k - 1, j);
    }
  }

  /** Nothing is kept exactly when no candidate scores below the start. */
  lemma {:induction false} MinRunNone(xs: seq<Option<real>>, init: Score, k: nat)
    requires k <= |xs|
    ensures MinRun(xs, init, k).index.None? <==> forall j :: 0 <= j < k && xs[j].Some? ==> !Below(xs[j].value, init)
  {
    if k > 0 {
      MinRunNone(xs, init, k - 1);
      MinRunFacts(xs, init, k - 1);
      var p := MinRun(xs, init, k - 1);
      if p.index.Some? {
        assert xs[p.index.value].Some? && Below(xs[p.index.value].value, init);
      }
    }
  }

  /** Ties keep the earlier candidate. */
  lemma {:induction false} MinRunIsFirst(xs: seq<Option<real>>, init: Score, k: nat, j: nat)
    requires k <= |xs| && MinRun(xs, init, k).index.Some? && j < MinRun(xs, init, k).index.value && xs[j].Some?
    ensures MinRun(xs, init, k).score.Fin? && xs[j].value > MinRun(xs, init, k).score.v
  {
    var p := MinRun(xs, init, k - 1);
    if MinRun(xs, init, k) == p {
      MinRunIsFirst(xs, init, k - 1, j);
    } else {
      MinRunIsMinimum(xs, init, k - 1, j);
    }
  }

  /** The combined scores of a list of evaluations. */
  function Combined(evs: seq<Option<Eval>>): (xs: seq<Option<real>>)
    ensures |xs| == |evs|
    ensures forall i :: 0 <= i < |evs| ==>
      ((xs[i].Some? <==> evs[i].Some?) && (evs[i].Some? ==> xs[i].value == evs[i].value.combined))
  {
    seq(|evs|, i requires 0 <= i < |evs| => if evs[i].Some? then Some(evs[i].value.combined) else None)
  }

  /** Lines 498-545: every scored fine candidate, kept when strictly better. */
  method FineSearch(s: Search, ks: seq<Candidate>, start: real) returns (p: Pick)
    ensures p == MinRun(Combined(EvalAll(s, ks)), Fin(start), |ks|)
  {
    ghost var xs := Combined(EvalAll(s, ks));
    p := Pick(None, Fin(start));
    for i := 0 to |ks|
      invariant p == MinRun(xs, Fin(start), i)
    {
      var x := CombinedScore(s, ks, i);
      if x.Some? && Below(x.value, p.score) {
        p := Pick(Some(i), Fin(x.value));
      }
    }
  }

  /** Lines 502-527 for one fine candidate: its combined score, if it has one. */
  method CombinedScore(s: Search, ks: seq<Candidate>, i: nat) returns (x: Option<real>)
    requires i < |ks|
    ensures x == Combined(EvalAll(s, ks))[i]
  {
    var ev := EvalCandidate(s, ks[i]);
    CombinedAt(s, ks, i);
    x := if ev.Some? then Some(ev.value.combined) else None;
  }

  /** Entry `i` of the combined scores is candidate `i`'s combined score, if it has one. */
  lemma CombinedAt(s: Search, ks: seq<Candidate>, i: nat)
    requires i < |ks|
    ensures var ev := EvalCandidate(s, ks[i]);
      Combined(EvalAll(s, ks))[i] == if ev.Some? then Some(ev.value.combined) else None
  {
    assert EvalAll(s, ks)[i] == EvalCandidate(s, ks[i]);
  }

  // ---------------------------------------------------------------------------------
  // The fallback rotations (lines 574-601)
  // ---------------------------------------------------------------------------------

  /** Line 593. */
  const FallbackSlack: real := 1.2

  /** The index kept so far and the running score. */
  datatype Held = Held(index: Option<nat>, score: real)

  /** Keep a rotation whenever it scores below 1.2 times the running score. */
  function FallbackRun(xs: seq<Option<real>>, init: real, k: nat): (h: Held)
    requires k <= |xs|
    ensures h.index.Some? ==> h.index.value < k
  {
    if k == 0 then Held(None, init)
    else
      var h := FallbackRun(xs, init, k - 1);
      if xs[k - 1].Some? && xs[k - 1].value < h.score * FallbackSlack then Held(Some(k - 1), xs[k - 1].value) else h
  }

  /**
   * The kept rotation is the last one that came within 20% of the running score, and the
   * running score is its score; with nothing kept it is still the baseline.
   */
  lemma {:induction false} FallbackFacts(xs: seq<Option<real>>, init: real, k: nat)
    requires k <= |xs|
    ensures var h := FallbackRun(xs, init, k);
      (h.index.None? ==>
         (h.score == init && forall j :: 0 <= j < k && xs[j].Some? ==> xs[j].value >= init * FallbackSlack))
      && (h.index.Some? ==> xs[h.index.value].Some? && h.score == xs[h.index.value].value)
  {
    if k > 0 {
      FallbackFacts(xs, init, k - 1);
    }
  }

  /**
   * The kept rotation need not be the best one tried: from a baseline of 10, scores of 10
   * and then 11 keep the second, since 11 is within 20% of 10.
   */
  lemma FallbackKeepsLastWithinSlack()
    ensures FallbackRun([Some(10.0), Some(11.0)], 10.0, 2) == Held(Some(1), 11.0)
  {
    assert FallbackRun([Some(10.0), Some(11.0)], 10.0, 1) == Held(Some(0), 10.0);
  }
}

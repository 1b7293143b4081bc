/**
 * backend/utils/tps.py: validation of the control points handed to the thin-plate spline,
 * the shape of the point function built from the two fitted interpolants, the geometry map
 * over it and the accuracy check. The interpolants themselves (scipy's `RBFInterpolator`)
 * are parameters of the model, as is the Euclidean norm taken by `np.sqrt`.
 */
module Tps {
  import opened Wrappers
  import opened Geometry

  /** A float64 value as numpy stores it. */
  datatype Float = Finite(v: real) | NaN | PosInf | NegInf

  /** `np.asarray(points, dtype=float)`: its shape and its row-major entries. */
  datatype NdArray = NdArray(shape: seq<nat>, data: seq<Float>)

  /** `arr.ndim == 2 and arr.shape[1] == 2`. */
  predicate IsNx2(a: NdArray) {
    |a.shape| == 2 && a.shape[1] == 2
  }

  /** `np.any(np.isnan(arr)) or np.any(np.isinf(arr))`. */
  predicate HasNonFinite(a: NdArray) {
    exists i :: 0 <= i < |a.data| && !a.data[i].Finite?
  }

  /** The `ValueError`s of lines 33-46, and what the cubic fallback of lines 96-107 raises (`FitFailed`). */
  datatype TpsError =
    | SrcShape
    | DstShape
    | LengthMismatch(srcLen: nat, dstLen: nat)
    | TooFewPoints(count: nat)
    | SrcNonFinite
    | DstNonFinite
    | FitFailed

  /** Lines 32-46: the checks in their order; `None` when all pass. */
  function Validate(src: NdArray, dst: NdArray): (r: Option<TpsError>)
    ensures r.None? <==>
      IsNx2(src) && IsNx2(dst) && src.shape[0] == dst.shape[0] && src.shape[0] >= 3
      && !HasNonFinite(src) && !HasNonFinite(dst)
  {
    if !IsNx2(src) then Some(SrcShape)
    else if !IsNx2(dst) then Some(DstShape)
    else if src.shape[0] != dst.shape[0] then Some(LengthMismatch(src.shape[0], dst.shape[0]))
    else if src.shape[0] < 3 then Some(TooFewPoints(src.shape[0]))
    else if HasNonFinite(src) then Some(SrcNonFinite)
    else if HasNonFinite(dst) then Some(DstNonFinite)
    else None
  }

  /**
   * Each check reports only when every earlier one passed: a malformed source is reported
   * whatever the destination, a length mismatch only for two N x 2 arrays, and so on.
   */
  lemma ValidationOrder(src: NdArray, dst: NdArray)
    ensures Validate(src, dst) == Some(SrcShape) <==> !IsNx2(src)
    ensures Validate(src, dst) == Some(DstShape) <==> IsNx2(src) && !IsNx2(dst)
    ensures Validate(src, dst).Some? && Validate(src, dst).value.LengthMismatch? <==>
      IsNx2(src) && IsNx2(dst) && src.shape[0] != dst.shape[0]
    ensures Validate(src, dst).Some? && Validate(src, dst).value.TooFewPoints? <==>
      IsNx2(src) && IsNx2(dst) && src.shape[0] == dst.shape[0] && src.shape[0] < 3
    ensures Validate(src, dst) == Some(SrcNonFinite) <==>
      IsNx2(src) && IsNx2(dst) && src.shape[0] == dst.shape[0] && src.shape[0] >= 3 && HasNonFinite(src)
    ensures Validate(src, dst) == Some(DstNonFinite) <==>
      IsNx2(src) && IsNx2(dst) && src.shape[0] == dst.shape[0] && src.shape[0] >= 3
      && !HasNonFinite(src) && HasNonFinite(dst)
  {
  }

  /** The radial basis kernel the interpolants were fitted with. */
  datatype Kernel = ThinPlateSpline | Cubic

  /** The transform returned by `tps_transform_from_points`: the kernel and the two per-axis interpolants, each a point of the source plane to one output coordinate. */
  datatype TpsFunc = TpsFunc(kernel: Kernel, fx: Pt -> real, fy: Pt -> real)

  /** Lines 79-84 and 109-113: `(interp_x(p), interp_y(p))`. */
  function TransformFunc(t: TpsFunc): Pt -> Pt {
    p => Pt(t.fx(p), t.fy(p))
  }

  /**
   * Lines 17-115: validation first; then the thin-plate fit, or, when building it raised
   * (`tpsFit` is `None`), the cubic fit, which runs outside any `try`, so that its raise
   * (`cubicFit` is `None`) leaves the function. The fits are what scipy returns for these
   * points.
   */
  function TpsTransformFromPoints(src: NdArray, dst: NdArray, tpsFit: Option<(Pt -> real, Pt -> real)>,
                                  cubicFit: Option<(Pt -> real, Pt -> real)>): (r: Result<TpsFunc, TpsError>)
    ensures r.Err? <==> Validate(src, dst).Some? || (tpsFit.None? && cubicFit.None?)
    ensures Validate(src, dst).Some? ==> r == Err(Validate(src, dst).value)
    ensures Validate(src, dst).None? && tpsFit.None? && cubicFit.None? ==> r == Err(FitFailed)
    ensures r.Ok? ==> (r.value.kernel == ThinPlateSpline <==> tpsFit.Some?)
    ensures r.Ok? && tpsFit.Some? ==> r.value.fx == tpsFit.value.0 && r.value.fy == tpsFit.value.1
    ensures r.Ok? && tpsFit.None? ==> r.value.fx == cubicFit.value.0 && r.value.fy == cubicFit.value.1
  {
    var e := Validate(src, dst);
    if e.Some? then Err(e.value)
    else if tpsFit.Some? then Ok(TpsFunc(ThinPlateSpline, tpsFit.value.0, tpsFit.value.1))
    else if cubicFit.Some? then Ok(TpsFunc(Cubic, cubicFit.value.0, cubicFit.value.1))
    else Err(FitFailed)
  }

  /** Each output axis is its own interpolant: changing the y fit never moves an x coordinate, and conversely. */
  lemma AxesIndependent(t: TpsFunc, gy: Pt -> real, gx: Pt -> real, p: Pt)
    ensures TransformFunc(t)(p).x == TransformFunc(TpsFunc(t.kernel, t.fx, gy))(p).x == t.fx(p)
    ensures TransformFunc(t)(p).y == TransformFunc(TpsFunc(t.kernel, gx, t.fy))(p).y == t.fy(p)
  {
  }

  /** Lines 118-120. */
  function ApplyTpsToXy(p: Pt, f: Pt -> Pt): Pt {
    f(p)
  }

  /** Lines 123-173: the TPS map of every coordinate of a geometry. */
  function ApplyTpsToGeometry(g: Geom, f: Pt -> Pt): Geom {
    MapGeometry(p => ApplyTpsToXy(p, f), g)
  }

  /** The geometry map passes `None` and empty geometries through and otherwise keeps every part and ring size. */
  lemma TpsGeometryShape(g: Geom, f: Pt -> Pt)
    ensures IsEmpty(g) ==> ApplyTpsToGeometry(g, f) == g
    ensures !g.LinearRing? ==> Shape(ApplyTpsToGeometry(g, f)) == Shape(g)
    ensures !g.LinearRing? ==> Coords(ApplyTpsToGeometry(g, f)) == MapPts(f, Coords(g))
  {
    var h := (p: Pt) => ApplyTpsToXy(p, f);
    MapGeometryCases(h, g);
    TransformCoordsShape(h, g);
    assert MapPts(h, Coords(g)) == MapPts(f, Coords(g));
  }

  /** The Euclidean error at control point `k`, with `np.sqrt` of the sum of squares given as `norm`. */
  function PointMisfit(f: Pt -> Pt, s: Pt, d: Pt, norm: (real, real) -> real): real {
    norm(f(s).x - d.x, f(s).y - d.y)
  }

  function Max(a: real, b: real): real {
    if a >= b then a else b
  }

  /** The maximum error over the first `n` pairs, starting from 0.0. */
  function MaxError(f: Pt -> Pt, src: seq<Pt>, dst: seq<Pt>, norm: (real, real) -> real, n: nat): real
    requires n <= |src| && n <= |dst|
  {
    if n == 0 then 0.0
    else Max(MaxError(f, src, dst, norm, n - 1), PointMisfit(f, src[n - 1], dst[n - 1], norm))
  }

  /** Lines 176-189, over the pairs of `zip(src_points, dst_points)`. */
  method VerifyTpsAccuracy(f: Pt -> Pt, src: seq<Pt>, dst: seq<Pt>, norm: (real, real) -> real) returns (maxError: real)
    ensures maxError == MaxError(f, src, dst, norm, if |src| < |dst| then |src| else |dst|)
  {
    var n := if |src| < |dst| then |src| else |dst|;
    maxError := 0.0;
    for i := 0 to n
      invariant maxError == MaxError(f, src, dst, norm, i)
    {
      var err := PointMisfit(f, src[i], dst[i], norm);
      maxError := Max(maxError, err);
    }
  }

  /** The reported error is non-negative, bounds every pair's error, and is one of them unless there are none. */
  lemma {:induction false} MaxErrorIsMaximum(f: Pt -> Pt, src: seq<Pt>, dst: seq<Pt>, norm: (real, real) -> real, n: nat)
    requires n <= |src| && n <= |dst|
    requires forall dx, dy :: norm(dx, dy) >= 0.0
    ensures MaxError(f, src, dst, norm, n) >= 0.0
    ensures forall k :: 0 <= k < n ==> PointMisfit(f, src[k], dst[k], norm) <= MaxError(f, src, dst, norm, n)
    ensures n == 0 ==> MaxError(f, src, dst, norm, n) == 0.0
    ensures n > 0 ==> exists k :: 0 <= k < n && MaxError(f, src, dst, norm, n) == PointMisfit(f, src[k], dst[k], norm)
  {
    if n > 0 {
      MaxErrorIsMaximum(f, src, dst, norm, n - 1);
      var m := MaxError(f, src, dst, norm, n - 1);
      var e := PointMisfit(f, src[n - 1], dst[n - 1], norm);
      if n - 1 > 0 && m >= e {
        var k :| 0 <= k < n - 1 && m == PointMisfit(f, src[k], dst[k], norm);
        assert MaxError(f, src, dst, norm, n) == PointMisfit(f, src[k], dst[k], norm);
      } else if m >= e {
        assert m == 0.0 && e >= 0.0;
        assert MaxError(f, src, dst, norm, n) == PointMisfit(f, src[n - 1], dst[n - 1], norm);
      } else {
        assert MaxError(f, src, dst, norm, n) == PointMisfit(f, src[n - 1], dst[n - 1], norm);
      }
    }
  }

  /** The smoothing-free fit reproduces every control point exactly. */
  predicate Interpolates(f: Pt -> Pt, src: seq<Pt>, dst: seq<Pt>) {
    forall k :: 0 <= k < |src| && k < |dst| ==> f(src[k]) == dst[k]
  }

  /** Under exact interpolation the accuracy check reports no error at all. */
  lemma {:induction false} ExactFitHasNoError(f: Pt -> Pt, src: seq<Pt>, dst: seq<Pt>, norm: (real, real) -> real, n: nat)
    requires n <= |src| && n <= |dst|
    requires Interpolates(f, src, dst) && norm(0.0, 0.0) == 0.0
    ensures MaxError(f, src, dst, norm, n) == 0.0
  {
    if n > 0 {
      ExactFitHasNoError(f, src, dst, norm, n - 1);
      assert f(src[n - 1]) == dst[n - 1];
    }
  }
}

/**
 * data_processing/derive_frame.py: the robot frame derived from one chewing recording. Z is
 * fixed to the motion-capture Y axis, Y is the main direction of jaw motion in the plane
 * orthogonal to Z, signed so that it rises and falls with Z, and X = Y × Z. The basis is
 * saved with columns (X, Y, Z) only when its determinant is close to 1.
 */
module FrameDerivation {
  import opened Wrappers
  import opened LinAlg
  import opened Rotations
  import opened MocapTable

  /** The fixed Z axis: the motion-capture Y axis, already of unit length. */
  const AxisZ: Vec3 := Vec3(0.0, 1.0, 0.0)

  const BasisError: string := "Resulting basis not right-handed/orthonormal – check data."

  /** p with its component along z removed: `p - (p @ z) * z`. Adding that component back gives p. */
  function Reject(p: Vec3, z: Vec3): (r: Vec3)
    ensures Add(r, Scale(Dot(p, z), z)) == p
  {
    Sub(p, Scale(Dot(p, z), z))
  }

  /** Removing the component along a unit axis leaves a vector orthogonal to it. */
  lemma RejectOrthogonal(p: Vec3, z: Vec3)
    requires Dot(z, z) == 1.0
    ensures Dot(Reject(p, z), z) == 0.0
  {
    assert Dot(Reject(p, z), z) == Dot(p, z) - Dot(p, z) * Dot(z, z);
  }

  /** Against the fixed axis the rejection just zeroes the middle coordinate. */
  lemma RejectAxisZ(p: Vec3)
    ensures Reject(p, AxisZ) == Vec3(p.x, 0.0, p.z)
    ensures Dot(Reject(p, AxisZ), AxisZ) == 0.0
  {
  }

  /** Step 6: every jaw position projected onto the plane orthogonal to Z. */
  function ProjectAll(ps: seq<Vec3>): (proj: seq<Vec3>)
    ensures |proj| == |ps|
    ensures forall i :: 0 <= i < |ps| ==> proj[i] == Vec3(ps[i].x, 0.0, ps[i].z)
  {
    seq(|ps|, i requires 0 <= i < |ps| => Reject(ps[i], AxisZ))
  }

  /** `jaw_pos @ v`: the coordinate of every position along v. */
  function Heights(ps: seq<Vec3>, v: Vec3): (h: seq<real>)
    ensures |h| == |ps| && forall i :: 0 <= i < |ps| ==> h[i] == Dot(ps[i], v)
  {
    seq(|ps|, i requires 0 <= i < |ps| => Dot(ps[i], v))
  }

  function NegAll(s: seq<real>): (t: seq<real>)
    ensures |t| == |s| && forall i :: 0 <= i < |s| ==> t[i] == -s[i]
  {
    seq(|s|, i requires 0 <= i < |s| => -s[i])
  }

  /** Flipping the axis flips every coordinate along it. */
  lemma HeightsNeg(ps: seq<Vec3>, v: Vec3)
    ensures Heights(ps, Neg(v)) == NegAll(Heights(ps, v))
  {
    assert forall i :: 0 <= i < |ps| ==> Dot(ps[i], Neg(v)) == -Dot(ps[i], v);
  }

  /** The squared Euclidean length. */
  function VecNormSq(v: Vec3): (n: real)
    ensures n >= 0.0
  {
    SelfProduct(v.x, v.x); SelfProduct(v.y, v.y); SelfProduct(v.z, v.z);
    Dot(v, v)
  }

  /** Only the zero vector has length zero. */
  lemma VecNormSqZero(v: Vec3)
    ensures VecNormSq(v) <= 0.0 <==> v == Zero
  {
    SelfProduct(v.x, v.x); SelfProduct(v.y, v.y); SelfProduct(v.z, v.z);
  }

  /** `v /= n`: every component divided by n, so that scaling back by n gives v. */
  function Normalized(v: Vec3, n: real): (r: Vec3)
    requires n != 0.0
    ensures Scale(n, r) == v
  {
    Vec3(v.x / n, v.y / n, v.z / n)
  }

  lemma NormalizedIsScale(v: Vec3, n: real)
    requires n != 0.0
    ensures Normalized(v, n) == Scale(1.0 / n, v)
  {
    var i := 1.0 / n;
    DivAsMul(v.x, n, i); DivAsMul(v.y, n, i); DivAsMul(v.z, n, i);
  }

  lemma ScaledVecNormSq(v: Vec3, c: real, c': real)
    requires c' == c
    ensures VecNormSq(Scale(c, v)) == (c * c') * VecNormSq(v)
  {
  }

  /** Dividing a non-zero vector by its length gives a unit vector. */
  lemma NormalizedUnitVec(v: Vec3, sqrt: real -> real)
    requires ExactSqrt(sqrt) && sqrt(VecNormSq(v)) != 0.0
    ensures VecNormSq(Normalized(v, sqrt(VecNormSq(v)))) == 1.0
  {
    var n := sqrt(VecNormSq(v));
    var i := 1.0 / n;
    NormalizedIsScale(v, n);
    ScaledVecNormSq(v, i, i);
    InverseSquare(n, i, i, VecNormSq(v));
  }

  /** Scaling a vector keeps it orthogonal to whatever it was orthogonal to. */
  lemma NormalizedOrthogonal(v: Vec3, n: real, w: Vec3)
    requires n != 0.0 && Dot(v, w) == 0.0
    ensures Dot(Normalized(v, n), w) == 0.0
  {
    NormalizedIsScale(v, n);
    ScaledDot(v, 1.0 / n, w);
  }

  lemma ScaledDot(v: Vec3, c: real, w: Vec3)
    ensures Dot(Scale(c, v), w) == c * Dot(v, w)
  {
  }

  /** `np.isclose(a, b, atol=1e-3)` with numpy's default relative tolerance of 1e-5. */
  predicate IsClose(a: real, b: real)
    ensures a == b ==> IsClose(a, b)
    ensures b == 1.0 ==> (IsClose(a, b) <==> 0.99899 <= a <= 1.00101)
  {
    (if a - b >= 0.0 then a - b else b - a) <= 0.001 + 0.00001 * (if b >= 0.0 then b else -b)
  }

  /** The correlation flips sign with either of its arguments; a NaN stays NaN. */
  ghost predicate CorrelationOdd(corrcoef: (seq<real>, seq<real>) -> Option<real>) {
    forall a, b :: corrcoef(a, NegAll(b)) == (if corrcoef(a, b).Some? then Some(-corrcoef(a, b).value) else None)
  }

  /** What derive_frame.py saves: Z is the fixed axis, the three columns are orthogonal, det ≈ 1. */
  predicate IsRobotBasis(m: Mat3) {
    Col2(m) == AxisZ && Dot(Col1(m), AxisZ) == 0.0
    && Dot(Col0(m), Col1(m)) == 0.0 && Dot(Col0(m), Col2(m)) == 0.0
    && IsClose(Det(m), 1.0)
  }

  /** A right-handed orthonormal basis. */
  predicate IsRotation(m: Mat3) {
    VecNormSq(Col0(m)) == 1.0 && VecNormSq(Col1(m)) == 1.0 && VecNormSq(Col2(m)) == 1.0
    && Dot(Col0(m), Col1(m)) == 0.0 && Dot(Col0(m), Col2(m)) == 0.0 && Dot(Col1(m), Col2(m)) == 0.0
    && Det(m) == 1.0
  }

  /**
   * Step 7, after the PCA: `vY -= vY.dot(vZ) * vZ` and `vY /= norm(vY)`. A zero length yields
   * NaN components in numpy; here it yields None.
   */
  method UnitInPlane(component: Vec3, sqrt: real -> real) returns (r: Option<Vec3>)
    ensures r.None? <==> sqrt(VecNormSq(Reject(component, AxisZ))) == 0.0
    ensures r.Some? ==> r.value == Normalized(Reject(component, AxisZ), sqrt(VecNormSq(Reject(component, AxisZ))))
    ensures r.Some? ==> Dot(r.value, AxisZ) == 0.0
    ensures ExactSqrt(sqrt) ==> (r.None? <==> Reject(component, AxisZ) == Zero)
    ensures ExactSqrt(sqrt) && r.Some? ==> VecNormSq(r.value) == 1.0
  {
    var vZ := AxisZ;
    var vY := component;
    vY := Sub(vY, Scale(Dot(vY, vZ), vZ));
    assert vY == Reject(component, AxisZ);
    InPlaneFacts(component, sqrt);
    var n := sqrt(VecNormSq(vY));
    if n == 0.0 {
      return None;
    }
    vY := Normalized(vY, n);
    return Some(vY);
  }

  /** What step 7 guarantees about the rejected and normalised component. */
  lemma InPlaneFacts(component: Vec3, sqrt: real -> real)
    ensures var y := Reject(component, AxisZ);
            sqrt(VecNormSq(y)) != 0.0 ==> Dot(Normalized(y, sqrt(VecNormSq(y))), AxisZ) == 0.0
    ensures var y := Reject(component, AxisZ);
            ExactSqrt(sqrt) ==> (sqrt(VecNormSq(y)) == 0.0 <==> y == Zero)
    ensures var y := Reject(component, AxisZ);
            ExactSqrt(sqrt) && sqrt(VecNormSq(y)) != 0.0 ==> VecNormSq(Normalized(y, sqrt(VecNormSq(y)))) == 1.0
  {
    var y := Reject(component, AxisZ);
    RejectAxisZ(component);
    if sqrt(VecNormSq(y)) != 0.0 {
      NormalizedOrthogonal(y, sqrt(VecNormSq(y)), AxisZ);
      NonZeroLength(y, sqrt);
    } else {
      ZeroLengthOnlyForZero(y, sqrt);
    }
  }

  /**
   * Step 8: `vY` is negated exactly when the correlation of the positions along Z with those
   * along `vY` is negative. A NaN correlation (None) compares false and keeps the sign.
   */
  method SignByCorrelation(jaw: seq<Vec3>, vY: Vec3, corrcoef: (seq<real>, seq<real>) -> Option<real>)
    returns (s: Vec3)
    ensures var c := corrcoef(Heights(jaw, AxisZ), Heights(jaw, vY));
            (c.Some? && c.value < 0.0 ==> s == Neg(vY)) && (!(c.Some? && c.value < 0.0) ==> s == vY)
    ensures CorrelationOdd(corrcoef) ==>
              var c := corrcoef(Heights(jaw, AxisZ), Heights(jaw, s));
              c.None? || c.value >= 0.0
    ensures Dot(s, AxisZ) == 0.0 <==> Dot(vY, AxisZ) == 0.0
    ensures VecNormSq(s) == VecNormSq(vY)
  {
    s := vY;
    NegNormSq(vY);
    SignRule(jaw, vY, corrcoef);
    var c := corrcoef(Heights(jaw, AxisZ), Heights(jaw, s));
    if c.Some? && c.value < 0.0 {
      s := Neg(s);
    }
  }

  /** Under an odd correlation, flipping a negatively correlated axis makes the correlation positive. */
  lemma SignRule(jaw: seq<Vec3>, v: Vec3, corrcoef: (seq<real>, seq<real>) -> Option<real>)
    ensures var c := corrcoef(Heights(jaw, AxisZ), Heights(jaw, v));
            CorrelationOdd(corrcoef) && c.Some? && c.value < 0.0 ==>
              var f := corrcoef(Heights(jaw, AxisZ), Heights(jaw, Neg(v)));
              f.Some? && f.value > 0.0
  {
    if CorrelationOdd(corrcoef) {
      HeightsNeg(jaw, v);
      var a := Heights(jaw, AxisZ);
      var b := Heights(jaw, v);
      assert corrcoef(a, NegAll(b)) == (if corrcoef(a, b).Some? then Some(-corrcoef(a, b).value) else None);
    }
  }

  /**
   * Steps 9 and 10 and the sanity check: `vX = cross(vY, vZ)`, `vX /= norm(vX)`, the columns
   * (X, Y, Z), and the error unless the determinant is close to 1.
   */
  method CompleteBasis(vY: Vec3, sqrt: real -> real) returns (r: Result<Mat3, string>)
    ensures r.Err? ==> r.error == BasisError
    ensures r.Ok? ==> Col1(r.value) == vY && Col2(r.value) == AxisZ
    ensures r.Ok? ==> Dot(Col0(r.value), vY) == 0.0 && Dot(Col0(r.value), AxisZ) == 0.0
    ensures r.Ok? ==> IsClose(Det(r.value), 1.0)
    ensures ExactSqrt(sqrt) && Dot(vY, AxisZ) == 0.0 && VecNormSq(vY) == 1.0 ==>
              r.Ok? && IsRotation(r.value) && Col0(r.value) == Cross(vY, AxisZ)
  {
    var vZ := AxisZ;
    var vX := Cross(vY, vZ);
    CrossWithAxisZ(vY, sqrt);
    var nx := sqrt(VecNormSq(vX));
    if nx == 0.0 {
      return Err(BasisError);
    }
    NormalizedOrthogonal(vX, nx, vY);
    NormalizedOrthogonal(vX, nx, vZ);
    vX := Normalized(vX, nx);
    var basis := Columns(vX, vY, vZ);
    if !IsClose(Det(basis), 1.0) {
      return Err(BasisError);
    }
    return Ok(basis);
  }

  /**
   * Steps 7 to 10 on the first principal component: a unit Y in the plane orthogonal to Z,
   * signed by its correlation with Z, completed to (X, Y, Z). A zero length gives NaN in
   * numpy, which the determinant check then rejects; here that is the same error at once.
   */
  method OrientBasis(jaw: seq<Vec3>, component: Vec3, corrcoef: (seq<real>, seq<real>) -> Option<real>,
                     sqrt: real -> real) returns (r: Result<Mat3, string>)
    ensures r.Err? ==> r.error == BasisError
    ensures r.Ok? ==> IsRobotBasis(r.value)
    ensures r.Ok? && CorrelationOdd(corrcoef) ==>
              var c := corrcoef(Heights(jaw, AxisZ), Heights(jaw, Col1(r.value)));
              c.None? || c.value >= 0.0
    ensures r.Ok? ==> var y := Reject(component, AxisZ);
              sqrt(VecNormSq(y)) != 0.0
              && (Col1(r.value) == Normalized(y, sqrt(VecNormSq(y)))
                  || Col1(r.value) == Neg(Normalized(y, sqrt(VecNormSq(y)))))
    ensures ExactSqrt(sqrt) ==> (r.Ok? <==> Reject(component, AxisZ) != Zero)
    ensures ExactSqrt(sqrt) && r.Ok? ==> IsRotation(r.value) && Col0(r.value) == Cross(Col1(r.value), AxisZ)
  {
    var unit := UnitInPlane(component, sqrt);
    if unit.None? {
      return Err(BasisError);
    }
    var vY := SignByCorrelation(jaw, unit.value, corrcoef);
    r := CompleteBasis(vY, sqrt);
  }

  /** `df[["jaw_px", "jaw_py", "jaw_pz"]].values`: the jaw positions, row by row. */
  function JawPositions(rows: seq<MocapRow>): (ps: seq<Vec3>)
    ensures |ps| == |rows| && forall i :: 0 <= i < |rows| ==> ps[i] == rows[i].jawP
  {
    seq(|rows|, i requires 0 <= i < |rows| => rows[i].jawP)
  }

  /**
   * Steps 1 to 4: crop the first second, settle the sampling rate on the cropped table, and
   * low-pass filter the jaw positions at that rate. `lowpass` is the zero-phase Butterworth
   * filter `butter_lowpass_pos`; its `Err` is any exception the filter design or the
   * filtering raises.
   */
  function FilteredJaw(rows: seq<MocapRow>, fs: Option<real>, median: seq<real> -> real,
                       lowpass: (seq<Vec3>, real) -> Result<seq<Vec3>, string>): (r: Result<seq<Vec3>, string>)
    ensures rows == [] ==> r == Err(CropStartup(rows).error)
    ensures rows != [] && SamplingRate(fs, Times(CropStartup(rows).value), median).Err? ==> r == Err(RateError)
    ensures rows != [] && SamplingRate(fs, Times(CropStartup(rows).value), median).Ok? ==>
              r == lowpass(JawPositions(CropStartup(rows).value), SamplingRate(fs, Times(CropStartup(rows).value), median).value)
    ensures r.Ok? ==> rows != [] && SamplingRate(fs, Times(CropStartup(rows).value), median).Ok?
  {
    var cropped := CropStartup(rows);
    if cropped.Err? then Err(cropped.error)
    else
      var rate := SamplingRate(fs, Times(cropped.value), median);
      if rate.Err? then Err(rate.error)
      else lowpass(JawPositions(cropped.value), rate.value)
  }

  /**
   * `main` of derive_frame.py up to the save: the filtered jaw positions are projected onto
   * the plane orthogonal to Z, `pca` returns the first principal component of the projected
   * points (its `Err` is any exception the fit raises), and the basis is oriented and checked.
   */
  method DeriveFrame(rows: seq<MocapRow>, fs: Option<real>, median: seq<real> -> real,
                     lowpass: (seq<Vec3>, real) -> Result<seq<Vec3>, string>, pca: seq<Vec3> -> Result<Vec3, string>,
                     corrcoef: (seq<real>, seq<real>) -> Option<real>, sqrt: real -> real)
    returns (r: Result<Mat3, string>)
    ensures FilteredJaw(rows, fs, median, lowpass).Err? ==> r == Err(FilteredJaw(rows, fs, median, lowpass).error)
    ensures FilteredJaw(rows, fs, median, lowpass).Ok? && pca(ProjectAll(FilteredJaw(rows, fs, median, lowpass).value)).Err? ==>
              r == Err(pca(ProjectAll(FilteredJaw(rows, fs, median, lowpass).value)).error)
    ensures r.Err? && FilteredJaw(rows, fs, median, lowpass).Ok? && pca(ProjectAll(FilteredJaw(rows, fs, median, lowpass).value)).Ok? ==>
              r.error == BasisError
    ensures r.Ok? ==> FilteredJaw(rows, fs, median, lowpass).Ok? && pca(ProjectAll(FilteredJaw(rows, fs, median, lowpass).value)).Ok?
                      && IsRobotBasis(r.value)
    ensures r.Ok? && CorrelationOdd(corrcoef) ==>
              var jaw := FilteredJaw(rows, fs, median, lowpass).value;
              var c := corrcoef(Heights(jaw, AxisZ), Heights(jaw, Col1(r.value)));
              c.None? || c.value >= 0.0
    ensures ExactSqrt(sqrt) && FilteredJaw(rows, fs, median, lowpass).Ok? && pca(ProjectAll(FilteredJaw(rows, fs, median, lowpass).value)).Ok? ==>
              (r.Ok? <==> Reject(pca(ProjectAll(FilteredJaw(rows, fs, median, lowpass).value)).value, AxisZ) != Zero)
    ensures r.Ok? ==> var y := Reject(pca(ProjectAll(FilteredJaw(rows, fs, median, lowpass).value)).value, AxisZ);
              sqrt(VecNormSq(y)) != 0.0
              && (Col1(r.value) == Normalized(y, sqrt(VecNormSq(y)))
                  || Col1(r.value) == Neg(Normalized(y, sqrt(VecNormSq(y)))))
    ensures ExactSqrt(sqrt) && r.Ok? ==> IsRotation(r.value) && Col0(r.value) == Cross(Col1(r.value), AxisZ)
  {
    var jaw := FilteredJaw(rows, fs, median, lowpass);
    if jaw.Err? {
      return Err(jaw.error);
    }
    var proj := ProjectAll(jaw.value);
    var component := pca(proj);
    if component.Err? {
      return Err(component.error);
    }
    r := OrientBasis(jaw.value, component.value, corrcoef, sqrt);
  }

  /** With an exact square root only the zero vector has length 0. */
  lemma ZeroLengthOnlyForZero(v: Vec3, sqrt: real -> real)
    requires sqrt(VecNormSq(v)) == 0.0
    ensures ExactSqrt(sqrt) ==> v == Zero
  {
    if ExactSqrt(sqrt) {
      SqrtZero(sqrt, VecNormSq(v));
      VecNormSqZero(v);
    }
  }

  /** A vector of non-zero length is not the zero vector, and dividing by its length makes it a unit. */
  lemma NonZeroLength(v: Vec3, sqrt: real -> real)
    requires sqrt(VecNormSq(v)) != 0.0
    ensures ExactSqrt(sqrt) ==> v != Zero && VecNormSq(Normalized(v, sqrt(VecNormSq(v)))) == 1.0
    ensures ExactSqrt(sqrt) ==> VecNormSq(Neg(Normalized(v, sqrt(VecNormSq(v))))) == 1.0
  {
    if ExactSqrt(sqrt) {
      NormalizedUnitVec(v, sqrt);
      var u := Normalized(v, sqrt(VecNormSq(v)));
      NegNormSq(u);
      if v == Zero {
        SqrtOfSquare(sqrt, 0.0);
      }
    }
  }

  lemma NegNormSq(v: Vec3)
    ensures VecNormSq(Neg(v)) == VecNormSq(v)
    ensures Dot(Neg(v), AxisZ) == -Dot(v, AxisZ)
  {
  }

  /**
   * For a unit Y orthogonal to Z, Y × Z is already a unit vector and the columns
   * (Y × Z, Y, Z) have determinant 1.
   */
  lemma CrossWithAxisZ(y: Vec3, sqrt: real -> real)
    ensures ExactSqrt(sqrt) && Dot(y, AxisZ) == 0.0 && VecNormSq(y) == 1.0 ==>
              && VecNormSq(Cross(y, AxisZ)) == 1.0
              && sqrt(VecNormSq(Cross(y, AxisZ))) == 1.0
              && Normalized(Cross(y, AxisZ), 1.0) == Cross(y, AxisZ)
              && Det(Columns(Cross(y, AxisZ), y, AxisZ)) == 1.0
  {
    if ExactSqrt(sqrt) && Dot(y, AxisZ) == 0.0 && VecNormSq(y) == 1.0 {
      CrossNormSq(y, AxisZ);
      TripleProduct(y, AxisZ);
      SqrtOfSquare(sqrt, 1.0);
    }
  }
}

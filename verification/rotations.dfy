/**
 * The rotation helpers shared by data_processing/transform_trajectory.py and
 * data_processing/motion_capture_to_traj.py: quaternion to matrix, Z-Y-X Euler angles and
 * angle wrapping. `sqrt` and `atan2` are the math library's, passed in.
 */
module Rotations {
  import opened Wrappers
  import opened LinAlg

  /** A quaternion in the (x, y, z, w) order of the capture files. */
  datatype Quat = Quat(x: real, y: real, z: real, w: real)

  datatype Euler = Euler(roll: real, pitch: real, yaw: real)

  const ZeroQuat: Quat := Quat(0.0, 0.0, 0.0, 0.0)

  /** The squared Euclidean norm x² + y² + z² + w². */
  function NormSq(q: Quat): (n: real)
    ensures n >= 0.0
  {
    SelfProduct(q.x, q.x); SelfProduct(q.y, q.y); SelfProduct(q.z, q.z); SelfProduct(q.w, q.w);
    q.x * q.x + q.y * q.y + q.z * q.z + q.w * q.w
  }

  /** Only the zero quaternion has norm zero. */
  lemma NormSqZero(q: Quat)
    ensures NormSq(q) <= 0.0 <==> q == ZeroQuat
  {
    SelfProduct(q.x, q.x); SelfProduct(q.y, q.y); SelfProduct(q.z, q.z); SelfProduct(q.w, q.w);
  }

  /** A square is never negative, and only zero squares to zero. */
  lemma SelfProduct(a: real, b: real)
    requires a == b
    ensures a * b >= 0.0
    ensures a * b <= 0.0 <==> a == 0.0
  {
    if a == 0.0 {
      ZeroProduct(a, b);
    } else if a > 0.0 {
      PositiveProduct(a, b);
    } else {
      PositiveProduct(-a, -b);
      assert (-a) * (-b) == a * b;
    }
  }

  lemma ZeroProduct(x: real, y: real)
    requires x == 0.0
    ensures x * y == 0.0
  {
  }

  lemma PositiveProduct(x: real, y: real)
    requires x > 0.0 && y > 0.0
    ensures x * y > 0.0
  {
  }

  /** The rotation of a unit quaternion. */
  function UnitToRot(x: real, y: real, z: real, w: real): Mat3 {
    Mat3(Vec3(1.0 - 2.0 * (y * y + z * z), 2.0 * (x * y - z * w), 2.0 * (x * z + y * w)),
         Vec3(2.0 * (x * y + z * w), 1.0 - 2.0 * (x * x + z * z), 2.0 * (y * z - x * w)),
         Vec3(2.0 * (x * z - y * w), 2.0 * (y * z + x * w), 1.0 - 2.0 * (x * x + y * y)))
  }

  /** The rotation matrix of a unit quaternion. */
  function RotOf(u: Quat): (r: Mat3)
    ensures u == Quat(0.0, 0.0, 0.0, 1.0) ==> r == Identity
  {
    UnitToRot(u.x, u.y, u.z, u.w)
  }

  /** Every component divided by n, so that scaling back by n gives q. */
  function Normalize(q: Quat, n: real): (r: Quat)
    requires n != 0.0
    ensures ScaleQuat(n, r) == q
  {
    Quat(q.x / n, q.y / n, q.z / n, q.w / n)
  }

  /** `quat_to_rot`: normalise, then build the matrix; a zero norm is an error. */
  function QuatToRot(q: Quat, sqrt: real -> real): (r: Result<Mat3, string>)
    ensures r.Err? <==> sqrt(NormSq(q)) == 0.0
    ensures r.Ok? ==> r.value == RotOf(Normalize(q, sqrt(NormSq(q))))
  {
    var n := sqrt(NormSq(q));
    if n == 0.0 then
      Err("Zero-norm quaternion")
    else Ok(RotOf(Normalize(q, n)))
  }

  /** With an exact square root, only the zero quaternion is rejected. */
  lemma QuatToRotErrIff(q: Quat, sqrt: real -> real)
    requires ExactSqrt(sqrt)
    ensures QuatToRot(q, sqrt).Err? <==> q == ZeroQuat
  {
    SqrtZero(sqrt, NormSq(q));
    NormSqZero(q);
  }

  /** The columns of the homogeneous (not yet normalised) quaternion matrix. */
  function H0(x: real, y: real, z: real, w: real): Vec3 {
    Vec3(w * w + x * x - y * y - z * z, 2.0 * (x * y + z * w), 2.0 * (x * z - y * w))
  }
  function H1(x: real, y: real, z: real, w: real): Vec3 {
    Vec3(2.0 * (x * y - z * w), w * w - x * x + y * y - z * z, 2.0 * (y * z + x * w))
  }
  function H2(x: real, y: real, z: real, w: real): Vec3 {
    Vec3(2.0 * (x * z + y * w), 2.0 * (y * z - x * w), w * w - x * x - y * y + z * z)
  }

  function N4(x: real, y: real, z: real, w: real): real {
    x * x + y * y + z * z + w * w
  }

  lemma H00(x: real, y: real, z: real, w: real)
    ensures Dot(H0(x, y, z, w), H0(x, y, z, w)) == N4(x, y, z, w) * N4(x, y, z, w)
  {
  }
  lemma H11(x: real, y: real, z: real, w: real)
    ensures Dot(H1(x, y, z, w), H1(x, y, z, w)) == N4(x, y, z, w) * N4(x, y, z, w)
  {
  }
  lemma H22(x: real, y: real, z: real, w: real)
    ensures Dot(H2(x, y, z, w), H2(x, y, z, w)) == N4(x, y, z, w) * N4(x, y, z, w)
  {
  }
  lemma H01(x: real, y: real, z: real, w: real)
    ensures Dot(H0(x, y, z, w), H1(x, y, z, w)) == 0.0
  {
  }
  lemma H02(x: real, y: real, z: real, w: real)
    ensures Dot(H0(x, y, z, w), H2(x, y, z, w)) == 0.0
  {
  }
  lemma H12(x: real, y: real, z: real, w: real)
    ensures Dot(H1(x, y, z, w), H2(x, y, z, w)) == 0.0
  {
  }

  /** The matrix of a unit quaternion is orthogonal: its transpose is its inverse. */
  lemma UnitToRotOrthogonal(x: real, y: real, z: real, w: real)
    requires x * x + y * y + z * z + w * w == 1.0
    ensures MatMul(Transpose(UnitToRot(x, y, z, w)), UnitToRot(x, y, z, w)) == Identity
  {
    var r := UnitToRot(x, y, z, w);
    assert r == Columns(H0(x, y, z, w), H1(x, y, z, w), H2(x, y, z, w));
    H00(x, y, z, w); H11(x, y, z, w); H22(x, y, z, w);
    H01(x, y, z, w); H02(x, y, z, w); H12(x, y, z, w);
  }

  lemma UnitToRotEven(x: real, y: real, z: real, w: real)
    ensures UnitToRot(-x, -y, -z, -w) == UnitToRot(x, y, z, w)
  {
  }

  /** The matrix depends only on the quaternion up to sign. */
  lemma RotOfEven(u: Quat)
    ensures RotOf(NegQuat(u)) == RotOf(u)
  {
    UnitToRotEven(u.x, u.y, u.z, u.w);
  }

  /** Every non-zero quaternion yields a rotation matrix (RᵀR = I). */
  lemma QuatToRotOrthogonal(q: Quat, sqrt: real -> real)
    requires ExactSqrt(sqrt) && q != ZeroQuat
    ensures QuatToRot(q, sqrt).Ok?
    ensures MatMul(Transpose(QuatToRot(q, sqrt).value), QuatToRot(q, sqrt).value) == Identity
  {
    QuatToRotErrIff(q, sqrt);
    var u := Normalize(q, sqrt(NormSq(q)));
    NormalizedUnit(q, sqrt);
    UnitToRotOrthogonal(u.x, u.y, u.z, u.w);
  }

  /** The transpose of a quaternion's matrix is the matrix of its conjugate. */
  lemma UnitToRotTranspose(x: real, y: real, z: real, w: real)
    ensures Transpose(UnitToRot(x, y, z, w)) == UnitToRot(-x, -y, -z, w)
  {
  }

  /** The rows of the matrix are orthonormal too (RRᵀ = I), so Rᵀ undoes R. */
  lemma QuatToRotRowsOrthonormal(q: Quat, sqrt: real -> real)
    requires ExactSqrt(sqrt) && q != ZeroQuat
    ensures QuatToRot(q, sqrt).Ok?
    ensures MatMul(QuatToRot(q, sqrt).value, Transpose(QuatToRot(q, sqrt).value)) == Identity
  {
    QuatToRotErrIff(q, sqrt);
    var u := Normalize(q, sqrt(NormSq(q)));
    NormalizedUnit(q, sqrt);
    var r := RotOf(u);
    UnitToRotTranspose(u.x, u.y, u.z, u.w);
    TransposeInvolution(r);
    ConjugateSum(u.x, u.y, u.z, u.w);
    UnitToRotOrthogonal(-u.x, -u.y, -u.z, u.w);
  }

  lemma ConjugateSum(x: real, y: real, z: real, w: real)
    ensures (-x) * (-x) + (-y) * (-y) + (-z) * (-z) + w * w == x * x + y * y + z * z + w * w
  {
  }

  /** Dividing by the norm gives a unit quaternion. */
  lemma NormalizedUnit(q: Quat, sqrt: real -> real)
    requires ExactSqrt(sqrt) && sqrt(NormSq(q)) != 0.0
    ensures NormSq(Normalize(q, sqrt(NormSq(q)))) == 1.0
  {
    var n := sqrt(NormSq(q));
    assert n * n == NormSq(q);
    var i := 1.0 / n;
    DivAsMul(q.x, n, i); DivAsMul(q.y, n, i); DivAsMul(q.z, n, i); DivAsMul(q.w, n, i);
    assert Normalize(q, n) == ScaleQuat(i, q);
    ScaledNormSq(q, i, i, i);
    InverseSquare(n, i, i, NormSq(q));
  }

  lemma DivAsMul(v: real, n: real, i: real)
    requires n != 0.0 && i == 1.0 / n
    ensures v / n == i * v
  {
  }

  lemma InverseSquare(n: real, i: real, i': real, v: real)
    requires n != 0.0 && i == 1.0 / n && i' == i && v == n * n
    ensures (i * i') * v == 1.0
  {
    assert i * n == 1.0;
  }

  /** A unit quaternion is used as it is, so its matrix is a rotation (RᵀR = I). */
  lemma QuatToRotUnit(q: Quat, sqrt: real -> real)
    requires ExactSqrt(sqrt) && NormSq(q) == 1.0
    ensures QuatToRot(q, sqrt) == Ok(RotOf(q))
    ensures MatMul(Transpose(QuatToRot(q, sqrt).value), QuatToRot(q, sqrt).value) == Identity
  {
    SqrtOfSquare(sqrt, 1.0);
    UnitToRotOrthogonal(q.x, q.y, q.z, q.w);
  }

  function ScaleQuat(c: real, q: Quat): Quat {
    Quat(c * q.x, c * q.y, c * q.z, c * q.w)
  }

  function NegQuat(q: Quat): Quat {
    Quat(-q.x, -q.y, -q.z, -q.w)
  }

  /** Normalising first makes the result blind to scaling, including by -1. */
  lemma QuatToRotScaleInvariant(q: Quat, c: real, sqrt: real -> real)
    requires ExactSqrt(sqrt) && c != 0.0
    ensures QuatToRot(ScaleQuat(c, q), sqrt) == QuatToRot(q, sqrt)
  {
    var n := sqrt(NormSq(q));
    var m := sqrt(NormSq(ScaleQuat(c, q)));
    var a := if c > 0.0 then c else -c;
    ScaledNorm(q, c, a, sqrt);
    if n == 0.0 {
      ZeroFactor(a, n);
    } else if c > 0.0 {
      NormalizeScaledSame(q, c, n, m);
    } else {
      NormalizeScaledOpposite(q, c, a, n, m);
      RotOfEven(Normalize(q, n));
    }
  }

  /** Normalising c q by c n gives the normalised q. */
  lemma NormalizeScaledSame(q: Quat, c: real, n: real, m: real)
    requires n != 0.0 && c != 0.0 && m == c * n
    ensures m != 0.0 && Normalize(ScaleQuat(c, q), m) == Normalize(q, n)
  {
    MulNonzero(c, n);
    var p := Normalize(ScaleQuat(c, q), m);
    assert p.x == q.x / n by { DivCancel(c, q.x, n); }
    assert p.y == q.y / n by { DivCancel(c, q.y, n); }
    assert p.z == q.z / n by { DivCancel(c, q.z, n); }
    assert p.w == q.w / n by { DivCancel(c, q.w, n); }
  }

  /** Normalising c q by -c n gives the normalised q negated. */
  lemma NormalizeScaledOpposite(q: Quat, c: real, a: real, n: real, m: real)
    requires n != 0.0 && a != 0.0 && c == -a && m == a * n
    ensures m != 0.0 && Normalize(ScaleQuat(c, q), m) == NegQuat(Normalize(q, n))
  {
    MulNonzero(a, n);
    var p := Normalize(ScaleQuat(c, q), m);
    assert p.x == -(q.x / n) by { DivCancelNeg(a, q.x, n); }
    assert p.y == -(q.y / n) by { DivCancelNeg(a, q.y, n); }
    assert p.z == -(q.z / n) by { DivCancelNeg(a, q.z, n); }
    assert p.w == -(q.w / n) by { DivCancelNeg(a, q.w, n); }
  }

  lemma ZeroFactor(a: real, b: real)
    requires b == 0.0
    ensures a * b == 0.0
  {
  }

  lemma MulNonzero(a: real, b: real)
    requires a != 0.0 && b != 0.0
    ensures a * b != 0.0
  {
  }

  /** A common non-zero factor cancels from a quotient. */
  lemma DivCancel(c: real, v: real, n: real)
    requires c != 0.0 && n != 0.0
    ensures (c * v) / (c * n) == v / n
  {
    var z := v / n;
    assert v == z * n;
    assert c * v == z * (c * n);
  }

  /** The same cancellation when the numerator carries the factor negated. */
  lemma DivCancelNeg(a: real, v: real, n: real)
    requires a != 0.0 && n != 0.0
    ensures ((-a) * v) / (a * n) == -(v / n)
  {
    var z := v / n;
    assert v == z * n;
    assert (-a) * v == (-z) * (a * n);
  }

  /** The norm of c q is |c| times the norm of q. */
  lemma ScaledNorm(q: Quat, c: real, a: real, sqrt: real -> real)
    requires ExactSqrt(sqrt) && a >= 0.0 && (a == c || a == -c)
    ensures sqrt(NormSq(ScaleQuat(c, q))) == a * sqrt(NormSq(q))
  {
    var s := sqrt(NormSq(q));
    var u := sqrt(NormSq(ScaleQuat(c, q)));
    assert s >= 0.0 && s * s == NormSq(q);
    assert u >= 0.0 && u * u == NormSq(ScaleQuat(c, q));
    ScaledNormSq(q, c, a, a);
    MulNonneg(a, s);
    SquareProduct(a, s, NormSq(q));
    SquareRootUnique(u, a * s);
  }

  /** Scaling by c multiplies the squared norm by |c|². */
  lemma ScaledNormSq(q: Quat, c: real, a: real, a': real)
    requires a' == a && (a == c || a == -c)
    ensures NormSq(ScaleQuat(c, q)) == (a * a') * NormSq(q)
  {
  }

  lemma MulNonneg(a: real, b: real)
    requires a >= 0.0 && b >= 0.0
    ensures !(a * b < 0.0)
  {
  }

  lemma SquareProduct(a: real, s: real, v: real)
    requires s * s == v
    ensures (a * s) * (a * s) == (a * a) * v
  {
  }

  /** The identity quaternion (0, 0, 0, 1) gives the identity matrix. */
  lemma QuatToRotIdentity(sqrt: real -> real)
    requires ExactSqrt(sqrt)
    ensures QuatToRot(Quat(0.0, 0.0, 0.0, 1.0), sqrt) == Ok(Identity)
  {
    SqrtOfSquare(sqrt, 1.0);
  }

  /** a² + b², the square of math.hypot(a, b). */
  function HypotSq(a: real, b: real): (h: real)
    ensures h >= 0.0
  {
    SelfProduct(a, a); SelfProduct(b, b);
    a * a + b * b
  }

  /** math.hypot(a, b). */
  function Hypot(a: real, b: real, sqrt: real -> real): real {
    sqrt(HypotSq(a, b))
  }

  /** The gimbal-lock test of `rot_to_euler_ZYX`. */
  predicate GimbalLocked(m: Mat3, sqrt: real -> real)
    ensures m.r0.x == 0.0 && m.r1.x == 0.0 && sqrt(0.0) == 0.0 ==> GimbalLocked(m, sqrt)
  {
    Hypot(m.r0.x, m.r1.x, sqrt) < 0.000001
  }

  /**
   * `rot_to_euler_ZYX`: roll, pitch, yaw of the Z-Y-X convention. Pitch has the same formula
   * in both branches; under gimbal lock roll is read from the second row and yaw is zero.
   */
  function RotToEulerZYX(m: Mat3, sqrt: real -> real, atan2: (real, real) -> real): (e: Euler)
    ensures e.pitch == atan2(-m.r2.x, Hypot(m.r0.x, m.r1.x, sqrt))
    ensures GimbalLocked(m, sqrt) ==> e.yaw == 0.0 && e.roll == atan2(-m.r1.z, m.r1.y)
    ensures !GimbalLocked(m, sqrt) ==> e.yaw == atan2(m.r1.x, m.r0.x) && e.roll == atan2(m.r2.y, m.r2.z)
  {
    var sy := Hypot(m.r0.x, m.r1.x, sqrt);
    if !(sy < 0.000001) then
      Euler(atan2(m.r2.y, m.r2.z), atan2(-m.r2.x, sy), atan2(m.r1.x, m.r0.x))
    else
      Euler(atan2(-m.r1.z, m.r1.y), atan2(-m.r2.x, sy), 0.0)
  }

  /** With an exact square root, the lock test is R00² + R10² < 10⁻¹². */
  lemma GimbalLockedIff(m: Mat3, sqrt: real -> real)
    requires ExactSqrt(sqrt)
    ensures GimbalLocked(m, sqrt) <==> HypotSq(m.r0.x, m.r1.x) < 0.000000000001
  {
    SqrtBelow(HypotSq(m.r0.x, m.r1.x), sqrt);
  }

  lemma SqrtBelow(v: real, sqrt: real -> real)
    requires ExactSqrt(sqrt) && v >= 0.0
    ensures sqrt(v) < 0.000001 <==> v < 0.000000000001
  {
    var s := sqrt(v);
    var t := 0.000001;
    assert s >= 0.0 && s * s == v;
    assert t * t == 0.000000000001;
    if s < t {
      MulStrict(s, t);
    } else {
      SquareMonotone(t, s);
    }
  }

  lemma SquareMonotone(a: real, b: real)
    requires 0.0 <= a <= b
    ensures a * a <= b * b
  {
    assert a * (b - a) >= 0.0;
    assert b * (b - a) >= 0.0;
  }

  /** Python's float pi. */
  const Pi: real := 3.141592653589793

  /** Python's `%` with a positive divisor: the result takes the divisor's sign. */
  function PyMod(a: real, m: real): (r: real)
    requires m > 0.0
    ensures 0.0 <= r < m
  {
    FloorScaled(a, m);
    a - m * (a / m).Floor as real
  }

  lemma FloorScaled(a: real, m: real)
    requires m > 0.0
    ensures m * (a / m).Floor as real <= a < m * (a / m).Floor as real + m
  {
    var q := a / m;
    var f := q.Floor as real;
    assert f <= q < f + 1.0;
    BracketBelow(m, q, f, a);
    BracketAbove(m, q, f, a);
  }

  lemma BracketBelow(m: real, q: real, f: real, a: real)
    requires m > 0.0 && m * q == a && f <= q
    ensures m * f <= a
  {
    assert m * (q - f) >= 0.0;
  }

  lemma BracketAbove(m: real, q: real, f: real, a: real)
    requires m > 0.0 && m * q == a && q < f + 1.0
    ensures a < m * f + m
  {
    MulPos(m, f + 1.0 - q);
    assert m * (f + 1.0 - q) == m * f + m - m * q;
  }

  lemma MulPos(a: real, b: real)
    requires a > 0.0 && b > 0.0
    ensures a * b > 0.0
  {
  }

  /** `wrap_rad`. */
  function WrapRad(a: real): (r: real)
    ensures -Pi <= r < Pi
  {
    PyMod(a + Pi, 2.0 * Pi) - Pi
  }

  /** Angles already in [-pi, pi) are left alone. */
  lemma WrapRadIdentity(a: real)
    requires -Pi <= a < Pi
    ensures WrapRad(a) == a
  {
    var q := (a + Pi) / (2.0 * Pi);
    assert 0.0 <= q < 1.0;
  }

  /** On the closed interval [-pi, pi] only pi itself moves: it wraps to -pi. */
  lemma WrapRadClosed(a: real)
    requires -Pi <= a <= Pi
    ensures WrapRad(a) == if a == Pi then -Pi else a
  {
    if a == Pi {
      assert (a + Pi) / (2.0 * Pi) == 1.0;
    } else {
      WrapRadIdentity(a);
    }
  }

  /** Adding whole turns does not change the wrapped angle. */
  lemma WrapRadPeriodic(a: real, k: int)
    ensures WrapRad(a + 2.0 * Pi * k as real) == WrapRad(a)
  {
    var m := 2.0 * Pi;
    var q := (a + Pi) / m;
    var q' := (a + m * k as real + Pi) / m;
    assert m * q' == m * (q + k as real);
    assert q' == q + k as real;
    assert q'.Floor == q.Floor + k;
  }
}

/**
 * Three-dimensional vectors and 3x3 matrices over the reals, as the motion-capture
 * scripts use them through numpy. A matrix is stored by rows: `m.r1.x` is numpy's `m[1, 0]`.
 */
module LinAlg {

  datatype Vec3 = Vec3(x: real, y: real, z: real)

  datatype Mat3 = Mat3(r0: Vec3, r1: Vec3, r2: Vec3)

  const Zero: Vec3 := Vec3(0.0, 0.0, 0.0)
  const Identity: Mat3 := Mat3(Vec3(1.0, 0.0, 0.0), Vec3(0.0, 1.0, 0.0), Vec3(0.0, 0.0, 1.0))

  function Add(a: Vec3, b: Vec3): Vec3 {
    Vec3(a.x + b.x, a.y + b.y, a.z + b.z)
  }

  function Sub(a: Vec3, b: Vec3): Vec3 {
    Vec3(a.x - b.x, a.y - b.y, a.z - b.z)
  }

  function Scale(k: real, a: Vec3): Vec3 {
    Vec3(k * a.x, k * a.y, k * a.z)
  }

  function Neg(a: Vec3): Vec3 {
    Vec3(-a.x, -a.y, -a.z)
  }

  function Dot(a: Vec3, b: Vec3): real {
    a.x * b.x + a.y * b.y + a.z * b.z
  }

  /** numpy's `cross`: orthogonal to both arguments. */
  function Cross(a: Vec3, b: Vec3): (c: Vec3)
    ensures Dot(c, a) == 0.0 && Dot(c, b) == 0.0
  {
    Vec3(a.y * b.z - a.z * b.y, a.z * b.x - a.x * b.z, a.x * b.y - a.y * b.x)
  }

  function Col0(m: Mat3): Vec3 { Vec3(m.r0.x, m.r1.x, m.r2.x) }
  function Col1(m: Mat3): Vec3 { Vec3(m.r0.y, m.r1.y, m.r2.y) }
  function Col2(m: Mat3): Vec3 { Vec3(m.r0.z, m.r1.z, m.r2.z) }

  /** numpy's `column_stack((a, b, c))`. */
  function Columns(a: Vec3, b: Vec3, c: Vec3): (m: Mat3)
    ensures Col0(m) == a && Col1(m) == b && Col2(m) == c
  {
    Mat3(Vec3(a.x, b.x, c.x), Vec3(a.y, b.y, c.y), Vec3(a.z, b.z, c.z))
  }

  function Transpose(m: Mat3): (t: Mat3)
    ensures t.r0 == Col0(m) && t.r1 == Col1(m) && t.r2 == Col2(m)
  {
    Mat3(Col0(m), Col1(m), Col2(m))
  }

  lemma TransposeInvolution(m: Mat3)
    ensures Transpose(Transpose(m)) == m
  {
  }

  function MatVec(m: Mat3, v: Vec3): Vec3 {
    Vec3(Dot(m.r0, v), Dot(m.r1, v), Dot(m.r2, v))
  }

  function MatMul(a: Mat3, b: Mat3): Mat3 {
    Mat3(Vec3(Dot(a.r0, Col0(b)), Dot(a.r0, Col1(b)), Dot(a.r0, Col2(b))),
         Vec3(Dot(a.r1, Col0(b)), Dot(a.r1, Col1(b)), Dot(a.r1, Col2(b))),
         Vec3(Dot(a.r2, Col0(b)), Dot(a.r2, Col1(b)), Dot(a.r2, Col2(b))))
  }

  /** Determinant by cofactor expansion along the first row. */
  function Det(m: Mat3): real {
    m.r0.x * (m.r1.y * m.r2.z - m.r1.z * m.r2.y)
    - m.r0.y * (m.r1.x * m.r2.z - m.r1.z * m.r2.x)
    + m.r0.z * (m.r1.x * m.r2.y - m.r1.y * m.r2.x)
  }

  lemma IdentityNeutral(m: Mat3, v: Vec3)
    ensures MatMul(Identity, m) == m && MatVec(Identity, v) == v && Transpose(Identity) == Identity
  {
  }

  /** (AB)v = A(Bv): applying a product is applying its factors in turn. */
  lemma MatMulVec(a: Mat3, b: Mat3, v: Vec3)
    ensures MatVec(MatMul(a, b), v) == MatVec(a, MatVec(b, v))
  {
  }

  /** Matrix products associate. */
  lemma MatMulAssoc(a: Mat3, b: Mat3, c: Mat3)
    ensures MatMul(MatMul(a, b), c) == MatMul(a, MatMul(b, c))
  {
    RowAssoc(a.r0, b, Col0(c)); RowAssoc(a.r0, b, Col1(c)); RowAssoc(a.r0, b, Col2(c));
    RowAssoc(a.r1, b, Col0(c)); RowAssoc(a.r1, b, Col1(c)); RowAssoc(a.r1, b, Col2(c));
    RowAssoc(a.r2, b, Col0(c)); RowAssoc(a.r2, b, Col1(c)); RowAssoc(a.r2, b, Col2(c));
  }

  /** One entry of the associativity law: (r B) v = r (B v). */
  lemma RowAssoc(r: Vec3, b: Mat3, v: Vec3)
    ensures Dot(Vec3(Dot(r, Col0(b)), Dot(r, Col1(b)), Dot(r, Col2(b))), v) == Dot(r, MatVec(b, v))
  {
  }

  /** Lagrange's identity: |a × b|² = |a|²|b|² − (a·b)². */
  lemma CrossNormSq(a: Vec3, b: Vec3)
    ensures Dot(Cross(a, b), Cross(a, b)) == Dot(a, a) * Dot(b, b) - Dot(a, b) * Dot(a, b)
  {
  }

  /** The determinant of the columns (a × b, a, b) is |a × b|². */
  lemma TripleProduct(a: Vec3, b: Vec3)
    ensures Det(Columns(Cross(a, b), a, b)) == Dot(Cross(a, b), Cross(a, b))
  {
  }

  /** Square roots, as supplied by the math library, taken to be exact. */
  ghost predicate ExactSqrt(sqrt: real -> real) {
    forall v :: v >= 0.0 ==> sqrt(v) >= 0.0 && sqrt(v) * sqrt(v) == v
  }

  /** Two non-negative reals with the same square are equal. */
  lemma SquareRootUnique(a: real, b: real)
    requires a >= 0.0 && b >= 0.0 && a * a == b * b
    ensures a == b
  {
    if a < b {
      MulStrict(a, b);
    } else if b < a {
      MulStrict(b, a);
    }
  }

  lemma MulStrict(a: real, b: real)
    requires 0.0 <= a < b
    ensures a * a < b * b
  {
    assert a * (b - a) >= 0.0;
    assert b * (b - a) > 0.0;
  }

  lemma SqrtOfSquare(sqrt: real -> real, a: real)
    requires ExactSqrt(sqrt) && a >= 0.0
    ensures sqrt(a * a) == a
  {
    SquareRootUnique(sqrt(a * a), a);
  }

  lemma SqrtZero(sqrt: real -> real, v: real)
    requires ExactSqrt(sqrt) && v >= 0.0
    ensures sqrt(v) == 0.0 <==> v == 0.0
  {
    if v == 0.0 {
      SquareRootUnique(sqrt(v), 0.0);
    }
  }
}

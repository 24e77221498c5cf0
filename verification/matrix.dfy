/** The 4x4 matrix helpers of the OpenGL backend: construction of the
    scale+translate, identity and rotation matrices and the multiplication
    with its particular operand order.

    A `Mat` holds the sixteen cells under their field names `m11` .. `m44`
    (the `_11` .. `_44` view of `OGLHelper.cpp`); `Cells` is the flat row-major
    array view (`marr`, and `m[i][j]` is `Cells(x)[4*i+j]`). `OGLHelper.cpp`
    writes through one view and reads through the other, so both are
    defined here and proved to be the same storage. */
module Matrix {

  datatype Mat = Mat(
    m11: real, m12: real, m13: real, m14: real,
    m21: real, m22: real, m23: real, m24: real,
    m31: real, m32: real, m33: real, m34: real,
    m41: real, m42: real, m43: real, m44: real)

  /** A row vector in homogeneous coordinates. */
  datatype Vec4 = Vec4(x: real, y: real, z: real, w: real)

  /** The flat, row-major view of the cells. */
  function Cells(x: Mat): (r: seq<real>)
    ensures |r| == 16
    ensures FromCells(r) == x
  {
    [x.m11, x.m12, x.m13, x.m14,
     x.m21, x.m22, x.m23, x.m24,
     x.m31, x.m32, x.m33, x.m34,
     x.m41, x.m42, x.m43, x.m44]
  }

  /** Reads sixteen row-major cells back into a matrix (the `memcpy` into `marr`). */
  function FromCells(s: seq<real>): Mat
    requires |s| == 16
  {
    Mat(s[0], s[1], s[2], s[3],
        s[4], s[5], s[6], s[7],
        s[8], s[9], s[10], s[11],
        s[12], s[13], s[14], s[15])
  }

  lemma CellsOfFromCells(s: seq<real>)
    requires |s| == 16
    ensures Cells(FromCells(s)) == s
  {
  }

  /** The cell at zero-based column `j` of a row given as four values. */
  function Pick(j: int, c0: real, c1: real, c2: real, c3: real): real
  {
    if j == 0 then c0 else if j == 1 then c1 else if j == 2 then c2 else c3
  }

  /** `m[i][j]`, zero-based row `i` and column `j`: field `_(i+1)(j+1)`. */
  function At(x: Mat, i: int, j: int): real
    requires 0 <= i < 4 && 0 <= j < 4
  {
    if i == 0 then Pick(j, x.m11, x.m12, x.m13, x.m14)
    else if i == 1 then Pick(j, x.m21, x.m22, x.m23, x.m24)
    else if i == 2 then Pick(j, x.m31, x.m32, x.m33, x.m34)
    else Pick(j, x.m41, x.m42, x.m43, x.m44)
  }

  /** The field view and the flat array view name the same cell. */
  lemma {:induction false} AtIsCell(x: Mat, i: int, j: int)
    requires 0 <= i < 4 && 0 <= j < 4
    ensures Cells(x)[4 * i + j] == At(x, i, j)
  {
    var c := Cells(x);
    assert c[0] == x.m11 && c[5] == x.m22 && c[10] == x.m33 && c[15] == x.m44;
  }

  /** Two matrices are equal exactly when they agree on every cell. */
  lemma {:induction false} CellwiseEqual(x: Mat, y: Mat)
    requires forall i, j | 0 <= i < 4 && 0 <= j < 4 :: At(x, i, j) == At(y, i, j)
    ensures x == y
  {
    assert At(x, 0, 0) == At(y, 0, 0) && At(x, 0, 1) == At(y, 0, 1);
    assert At(x, 0, 2) == At(y, 0, 2) && At(x, 0, 3) == At(y, 0, 3);
    assert At(x, 1, 0) == At(y, 1, 0) && At(x, 1, 1) == At(y, 1, 1);
    assert At(x, 1, 2) == At(y, 1, 2) && At(x, 1, 3) == At(y, 1, 3);
    assert At(x, 2, 0) == At(y, 2, 0) && At(x, 2, 1) == At(y, 2, 1);
    assert At(x, 2, 2) == At(y, 2, 2) && At(x, 2, 3) == At(y, 2, 3);
    assert At(x, 3, 0) == At(y, 3, 0) && At(x, 3, 1) == At(y, 3, 1);
    assert At(x, 3, 2) == At(y, 3, 2) && At(x, 3, 3) == At(y, 3, 3);
  }

  /** The row vector `v` multiplied on the left of `m`: component `j` of the
      result is the sum over `i` of `v_i * m[i][j]`. */
  function Transform(v: Vec4, m: Mat): Vec4
  {
    Vec4(v.x * m.m11 + v.y * m.m21 + v.z * m.m31 + v.w * m.m41,
         v.x * m.m12 + v.y * m.m22 + v.z * m.m32 + v.w * m.m42,
         v.x * m.m13 + v.y * m.m23 + v.z * m.m33 + v.w * m.m43,
         v.x * m.m14 + v.y * m.m24 + v.z * m.m34 + v.w * m.m44)
  }

  /** The shape every matrix of this core has: a 2D affine map, the third
      and fourth columns and the third row fixed to those of the identity. */
  predicate Affine2D(m: Mat)
  {
    && m.m13 == 0.0 && m.m14 == 0.0
    && m.m23 == 0.0 && m.m24 == 0.0
    && m.m31 == 0.0 && m.m32 == 0.0 && m.m33 == 1.0 && m.m34 == 0.0
    && m.m43 == 0.0 && m.m44 == 1.0
  }

  /** `SetMatrix`: scale `(sx, sy)` on the diagonal, translation `(tx, ty)`
      in the bottom row; a point is scaled first and then translated. */
  function SetMatrix(tx: real, ty: real, sx: real, sy: real): (r: Mat)
    ensures Affine2D(r)
    ensures forall x: real, y: real {:trigger Transform(Vec4(x, y, 0.0, 1.0), r)} ::
      Transform(Vec4(x, y, 0.0, 1.0), r) == Vec4(sx * x + tx, sy * y + ty, 0.0, 1.0)
  {
    var r := Mat(sx,  0.0, 0.0, 0.0,
                 0.0, sy,  0.0, 0.0,
                 0.0, 0.0, 1.0, 0.0,
                 tx,  ty,  0.0, 1.0);
    assert forall x: real, y: real {:trigger Transform(Vec4(x, y, 0.0, 1.0), r)} ::
      Transform(Vec4(x, y, 0.0, 1.0), r) == Vec4(sx * x + tx, sy * y + ty, 0.0, 1.0) by {
      forall x: real, y: real
        ensures Transform(Vec4(x, y, 0.0, 1.0), r) == Vec4(sx * x + tx, sy * y + ty, 0.0, 1.0)
      {
        var t := Transform(Vec4(x, y, 0.0, 1.0), r);
        assert t.x == x * sx + tx;
        assert t.y == y * sy + ty;
      }
    }
    r
  }

  /** `SetMatrixIdentity`. */
  function Identity(): (r: Mat)
    ensures Affine2D(r)
    ensures forall v {:trigger Transform(v, r)} :: Transform(v, r) == v
    ensures forall i, j | 0 <= i < 4 && 0 <= j < 4 :: At(r, i, j) == if i == j then 1.0 else 0.0
  {
    Mat(1.0, 0.0, 0.0, 0.0,
        0.0, 1.0, 0.0, 0.0,
        0.0, 0.0, 1.0, 0.0,
        0.0, 0.0, 0.0, 1.0)
  }

  /** `SetMatrixRotation`, with `s` and `c` standing for the sine and cosine
      of the angle. */
  function Rotation(s: real, c: real): (r: Mat)
    ensures Affine2D(r)
    ensures forall x: real, y: real {:trigger Transform(Vec4(x, y, 0.0, 1.0), r)} ::
      Transform(Vec4(x, y, 0.0, 1.0), r) == Vec4(c * x + s * y, c * y - s * x, 0.0, 1.0)
    ensures s == 0.0 && c == 1.0 ==> r == Identity()
  {
    var r := Mat(c,   -s,  0.0, 0.0,
                 s,   c,   0.0, 0.0,
                 0.0, 0.0, 1.0, 0.0,
                 0.0, 0.0, 0.0, 1.0);
    assert forall x: real, y: real {:trigger Transform(Vec4(x, y, 0.0, 1.0), r)} ::
      Transform(Vec4(x, y, 0.0, 1.0), r) == Vec4(c * x + s * y, c * y - s * x, 0.0, 1.0) by {
      forall x: real, y: real
        ensures Transform(Vec4(x, y, 0.0, 1.0), r) == Vec4(c * x + s * y, c * y - s * x, 0.0, 1.0)
      {
        var t := Transform(Vec4(x, y, 0.0, 1.0), r);
        assert t.x == x * c + y * s;
        assert t.y == x * -s + y * c;
      }
    }
    r
  }

  /** Cell `[i][j]` of `MatrixMultiply(result, a, b)`, with `OGLHelper.cpp`'s
      index convention: the column of `a` against the row of `b`. */
  function Entry(a: Mat, b: Mat, i: int, j: int): real
    requires 0 <= i < 4 && 0 <= j < 4
  {
    At(a, 0, j) * At(b, i, 0) +
    At(a, 1, j) * At(b, i, 1) +
    At(a, 2, j) * At(b, i, 2) +
    At(a, 3, j) * At(b, i, 3)
  }

  /** `MatrixMultiply(result, a, b)` as a value. */
  function Multiply(a: Mat, b: Mat): Mat
  {
    Mat(Entry(a, b, 0, 0), Entry(a, b, 0, 1), Entry(a, b, 0, 2), Entry(a, b, 0, 3),
        Entry(a, b, 1, 0), Entry(a, b, 1, 1), Entry(a, b, 1, 2), Entry(a, b, 1, 3),
        Entry(a, b, 2, 0), Entry(a, b, 2, 1), Entry(a, b, 2, 2), Entry(a, b, 2, 3),
        Entry(a, b, 3, 0), Entry(a, b, 3, 1), Entry(a, b, 3, 2), Entry(a, b, 3, 3))
  }

  /** The first `n` terms of the conventional row-by-column sum
      `(x . y)[i][j] = sum over k of x[i][k] * y[k][j]`. */
  function RowCol(x: Mat, y: Mat, i: int, j: int, n: nat): real
    requires 0 <= i < 4 && 0 <= j < 4 && n <= 4
  {
    if n == 0 then 0.0 else RowCol(x, y, i, j, n - 1) + At(x, i, n - 1) * At(y, n - 1, j)
  }

  /** The conventional matrix product `x . y`, defined independently of
      `OGLHelper.cpp`'s formula. */
  function Product(x: Mat, y: Mat): (r: Mat)
    ensures forall i, j | 0 <= i < 4 && 0 <= j < 4 :: At(r, i, j) == RowCol(x, y, i, j, 4)
  {
    var r := FromCells(seq(16, n requires 0 <= n < 16 => RowCol(x, y, n / 4, n % 4, 4)));
    assert forall i, j | 0 <= i < 4 && 0 <= j < 4 :: At(r, i, j) == RowCol(x, y, i, j, 4) by {
      forall i, j | 0 <= i < 4 && 0 <= j < 4
        ensures At(r, i, j) == RowCol(x, y, i, j, 4)
      {
        var n := 4 * i + j;
        assert n / 4 == i && n % 4 == j;
      }
    }
    r
  }

  /** Every cell of `Multiply(a, b)` is given by `OGLHelper.cpp`'s formula. */
  lemma {:induction false} MultiplyAt(a: Mat, b: Mat, i: int, j: int)
    requires 0 <= i < 4 && 0 <= j < 4
    ensures At(Multiply(a, b), i, j) == Entry(a, b, i, j)
  {
    var m := Multiply(a, b);
    if i == 0 { assert j == 0 || j == 1 || j == 2 || j == 3; }
    else if i == 1 { assert j == 0 || j == 1 || j == 2 || j == 3; }
    else if i == 2 { assert j == 0 || j == 1 || j == 2 || j == 3; }
    else { assert j == 0 || j == 1 || j == 2 || j == 3; }
  }

  /** `OGLHelper.cpp`'s formula and the conventional sum agree, cell by cell. */
  lemma {:induction false} RowColIsEntry(a: Mat, b: Mat, i: int, j: int)
    requires 0 <= i < 4 && 0 <= j < 4
    ensures RowCol(b, a, i, j, 4) == Entry(a, b, i, j)
  {
    var a0, a1, a2, a3 := At(a, 0, j), At(a, 1, j), At(a, 2, j), At(a, 3, j);
    var b0, b1, b2, b3 := At(b, i, 0), At(b, i, 1), At(b, i, 2), At(b, i, 3);
    assert RowCol(b, a, i, j, 1) == b0 * a0;
    assert RowCol(b, a, i, j, 2) == b0 * a0 + b1 * a1;
    assert RowCol(b, a, i, j, 3) == b0 * a0 + b1 * a1 + b2 * a2;
    assert RowCol(b, a, i, j, 4) == b0 * a0 + b1 * a1 + b2 * a2 + b3 * a3;
  }

  /** `MatrixMultiply(result, a, b)` is the conventional product `b . a`,
      not `a . b`. */
  lemma {:induction false} MultiplyIsReversedProduct(a: Mat, b: Mat)
    ensures Multiply(a, b) == Product(b, a)
  {
    var m := Multiply(a, b);
    var p := Product(b, a);
    forall i, j | 0 <= i < 4 && 0 <= j < 4
      ensures At(m, i, j) == At(p, i, j)
    {
      MultiplyAt(a, b, i, j);
      RowColIsEntry(a, b, i, j);
    }
    CellwiseEqual(m, p);
  }

  /** Multiplying by the identity on either side changes nothing. */
  lemma IdentityIsNeutral(m: Mat)
    ensures Multiply(Identity(), m) == m
    ensures Multiply(m, Identity()) == m
  {
  }

  /** The sixteen cells of `Multiply(a, b)` spelt out over the fields. */
  lemma MultiplyFields(a: Mat, b: Mat)
    ensures Multiply(a, b).m11 == a.m11 * b.m11 + a.m21 * b.m12 + a.m31 * b.m13 + a.m41 * b.m14
    ensures Multiply(a, b).m12 == a.m12 * b.m11 + a.m22 * b.m12 + a.m32 * b.m13 + a.m42 * b.m14
    ensures Multiply(a, b).m13 == a.m13 * b.m11 + a.m23 * b.m12 + a.m33 * b.m13 + a.m43 * b.m14
    ensures Multiply(a, b).m14 == a.m14 * b.m11 + a.m24 * b.m12 + a.m34 * b.m13 + a.m44 * b.m14
    ensures Multiply(a, b).m21 == a.m11 * b.m21 + a.m21 * b.m22 + a.m31 * b.m23 + a.m41 * b.m24
    ensures Multiply(a, b).m22 == a.m12 * b.m21 + a.m22 * b.m22 + a.m32 * b.m23 + a.m42 * b.m24
    ensures Multiply(a, b).m23 == a.m13 * b.m21 + a.m23 * b.m22 + a.m33 * b.m23 + a.m43 * b.m24
    ensures Multiply(a, b).m24 == a.m14 * b.m21 + a.m24 * b.m22 + a.m34 * b.m23 + a.m44 * b.m24
    ensures Multiply(a, b).m31 == a.m11 * b.m31 + a.m21 * b.m32 + a.m31 * b.m33 + a.m41 * b.m34
    ensures Multiply(a, b).m32 == a.m12 * b.m31 + a.m22 * b.m32 + a.m32 * b.m33 + a.m42 * b.m34
    ensures Multiply(a, b).m33 == a.m13 * b.m31 + a.m23 * b.m32 + a.m33 * b.m33 + a.m43 * b.m34
    ensures Multiply(a, b).m34 == a.m14 * b.m31 + a.m24 * b.m32 + a.m34 * b.m33 + a.m44 * b.m34
    ensures Multiply(a, b).m41 == a.m11 * b.m41 + a.m21 * b.m42 + a.m31 * b.m43 + a.m41 * b.m44
    ensures Multiply(a, b).m42 == a.m12 * b.m41 + a.m22 * b.m42 + a.m32 * b.m43 + a.m42 * b.m44
    ensures Multiply(a, b).m43 == a.m13 * b.m41 + a.m23 * b.m42 + a.m33 * b.m43 + a.m43 * b.m44
    ensures Multiply(a, b).m44 == a.m14 * b.m41 + a.m24 * b.m42 + a.m34 * b.m43 + a.m44 * b.m44
  {
  }

  /** Transforming by `Multiply(a, b)` applies `b` first and then `a`. */
  lemma {:induction false} TransformMultiply(v: Vec4, a: Mat, b: Mat)
    ensures Transform(v, Multiply(a, b)) == Transform(Transform(v, b), a)
  {
    TransformMultiplyX(v, a, b);
    TransformMultiplyY(v, a, b);
    TransformMultiplyZ(v, a, b);
    TransformMultiplyW(v, a, b);
  }

  // One lemma per component of `TransformMultiply`, to keep each proof small.

  lemma {:induction false} TransformMultiplyX(v: Vec4, a: Mat, b: Mat)
    ensures Transform(v, Multiply(a, b)).x == Transform(Transform(v, b), a).x
  {
    var m := Multiply(a, b);
    var w := Transform(v, b);
    MultiplyFields(a, b);
    SwapSums(v.x, v.y, v.z, v.w, a.m11, a.m21, a.m31, a.m41,
             b.m11, b.m12, b.m13, b.m14, b.m21, b.m22, b.m23, b.m24,
             b.m31, b.m32, b.m33, b.m34, b.m41, b.m42, b.m43, b.m44,
             m.m11, m.m21, m.m31, m.m41, w.x, w.y, w.z, w.w);
  }

  lemma {:induction false} TransformMultiplyY(v: Vec4, a: Mat, b: Mat)
    ensures Transform(v, Multiply(a, b)).y == Transform(Transform(v, b), a).y
  {
    var m := Multiply(a, b);
    var w := Transform(v, b);
    MultiplyFields(a, b);
    SwapSums(v.x, v.y, v.z, v.w, a.m12, a.m22, a.m32, a.m42,
             b.m11, b.m12, b.m13, b.m14, b.m21, b.m22, b.m23, b.m24,
             b.m31, b.m32, b.m33, b.m34, b.m41, b.m42, b.m43, b.m44,
             m.m12, m.m22, m.m32, m.m42, w.x, w.y, w.z, w.w);
  }

  lemma {:induction false} TransformMultiplyZ(v: Vec4, a: Mat, b: Mat)
    ensures Transform(v, Multiply(a, b)).z == Transform(Transform(v, b), a).z
  {
    var m := Multiply(a, b);
    var w := Transform(v, b);
    MultiplyFields(a, b);
    SwapSums(v.x, v.y, v.z, v.w, a.m13, a.m23, a.m33, a.m43,
             b.m11, b.m12, b.m13, b.m14, b.m21, b.m22, b.m23, b.m24,
             b.m31, b.m32, b.m33, b.m34, b.m41, b.m42, b.m43, b.m44,
             m.m13, m.m23, m.m33, m.m43, w.x, w.y, w.z, w.w);
  }

  lemma {:induction false} TransformMultiplyW(v: Vec4, a: Mat, b: Mat)
    ensures Transform(v, Multiply(a, b)).w == Transform(Transform(v, b), a).w
  {
    var m := Multiply(a, b);
    var w := Transform(v, b);
    MultiplyFields(a, b);
    SwapSums(v.x, v.y, v.z, v.w, a.m14, a.m24, a.m34, a.m44,
             b.m11, b.m12, b.m13, b.m14, b.m21, b.m22, b.m23, b.m24,
             b.m31, b.m32, b.m33, b.m34, b.m41, b.m42, b.m43, b.m44,
             m.m14, m.m24, m.m34, m.m44, w.x, w.y, w.z, w.w);
  }

  /** The double sum over `i` and `k` of `v_i * b_ik * a_k` taken in either
      order: `m_i` are the inner sums over `k`, `w_k` those over `i`. */
  lemma SwapSums(v1: real, v2: real, v3: real, v4: real,
                 a1: real, a2: real, a3: real, a4: real,
                 b11: real, b12: real, b13: real, b14: real,
                 b21: real, b22: real, b23: real, b24: real,
                 b31: real, b32: real, b33: real, b34: real,
                 b41: real, b42: real, b43: real, b44: real,
                 m1: real, m2: real, m3: real, m4: real,
                 w1: real, w2: real, w3: real, w4: real)
    requires m1 == a1 * b11 + a2 * b12 + a3 * b13 + a4 * b14
    requires m2 == a1 * b21 + a2 * b22 + a3 * b23 + a4 * b24
    requires m3 == a1 * b31 + a2 * b32 + a3 * b33 + a4 * b34
    requires m4 == a1 * b41 + a2 * b42 + a3 * b43 + a4 * b44
    requires w1 == v1 * b11 + v2 * b21 + v3 * b31 + v4 * b41
    requires w2 == v1 * b12 + v2 * b22 + v3 * b32 + v4 * b42
    requires w3 == v1 * b13 + v2 * b23 + v3 * b33 + v4 * b43
    requires w4 == v1 * b14 + v2 * b24 + v3 * b34 + v4 * b44
    ensures v1 * m1 + v2 * m2 + v3 * m3 + v4 * m4 == w1 * a1 + w2 * a2 + w3 * a3 + w4 * a4
  {
  }

  /** The product of two 2D affine matrices is again one. */
  lemma MultiplyKeepsAffine(a: Mat, b: Mat)
    requires Affine2D(a) && Affine2D(b)
    ensures Affine2D(Multiply(a, b))
  {
    MultiplyFields(a, b);
  }

  /** Two scale+translate matrices multiply to a third: the one that
      applies `b`'s scale and translation and then `a`'s. */
  lemma ScaleTranslateCompose(tx1: real, ty1: real, sx1: real, sy1: real,
                              tx2: real, ty2: real, sx2: real, sy2: real)
    ensures Multiply(SetMatrix(tx1, ty1, sx1, sy1), SetMatrix(tx2, ty2, sx2, sy2))
         == SetMatrix(tx2 * sx1 + tx1, ty2 * sy1 + ty1, sx1 * sx2, sy1 * sy2)
  {
    MultiplyFields(SetMatrix(tx1, ty1, sx1, sy1), SetMatrix(tx2, ty2, sx2, sy2));
  }

  /** The rotation by `(s, c)` and the one by `(-s, c)` undo each other
      when `(s, c)` lies on the unit circle, in either order. */
  lemma RotationInverse(s: real, c: real)
    requires s * s + c * c == 1.0
    ensures Multiply(Rotation(s, c), Rotation(-s, c)) == Identity()
    ensures Multiply(Rotation(-s, c), Rotation(s, c)) == Identity()
  {
    MultiplyFields(Rotation(s, c), Rotation(-s, c));
    MultiplyFields(Rotation(-s, c), Rotation(s, c));
  }

  /** The matrix stored in the sixteen cells of `mem` from offset `off`. */
  function MatAt(mem: seq<real>, off: nat): (x: Mat)
    requires off + 16 <= |mem|
    ensures Cells(x) == mem[off..off + 16]
  {
    CellsOfFromCells(mem[off..off + 16]);
    FromCells(mem[off..off + 16])
  }

  /** Cell `m[i][j]` of the matrix at offset `off` is memory cell `off + 4*i + j`. */
  lemma CellAt(mem: seq<real>, off: nat, i: int, j: int)
    requires off + 16 <= |mem| && 0 <= i < 4 && 0 <= j < 4
    ensures mem[off + 4 * i + j] == At(MatAt(mem, off), i, j)
  {
    AtIsCell(MatAt(mem, off), i, j);
    assert mem[off..off + 16][4 * i + j] == mem[off + 4 * i + j];
  }

  /** The sum the loop body computes for cell `[i][j]`, read straight from memory. */
  lemma {:induction false} EntryInMemory(mem: seq<real>, a: nat, b: nat, i: int, j: int)
    requires a + 16 <= |mem| && b + 16 <= |mem| && 0 <= i < 4 && 0 <= j < 4
    ensures Entry(MatAt(mem, a), MatAt(mem, b), i, j)
         == mem[a + j] * mem[b + 4 * i] +
            mem[a + 4 + j] * mem[b + 4 * i + 1] +
            mem[a + 8 + j] * mem[b + 4 * i + 2] +
            mem[a + 12 + j] * mem[b + 4 * i + 3]
  {
    CellAt(mem, a, 0, j); CellAt(mem, a, 1, j); CellAt(mem, a, 2, j); CellAt(mem, a, 3, j);
    CellAt(mem, b, i, 0); CellAt(mem, b, i, 1); CellAt(mem, b, i, 2); CellAt(mem, b, i, 3);
  }

  /** `MatrixMultiply(result, a, b)` on a flat memory of cells, each matrix
      given by the offset of its first cell. All sixteen cells are computed
      from memory into a temporary, and only then copied to `result` in one
      go; so the result is `b . a` of the operands as they were before the
      call, even when `result` is `a` or `b`. */
  method MatrixMultiply(mem: seq<real>, result: nat, a: nat, b: nat) returns (mem': seq<real>)
    requires result + 16 <= |mem| && a + 16 <= |mem| && b + 16 <= |mem|
    ensures |mem'| == |mem|
    ensures MatAt(mem', result) == Product(MatAt(mem, b), MatAt(mem, a))
    ensures forall p | 0 <= p < |mem| && !(result <= p < result + 16) :: mem'[p] == mem[p]
  {
    mem' := mem;
    ghost var x, y := MatAt(mem, a), MatAt(mem, b);
    var temp := new real[16];
    for j := 0 to 4
      invariant forall i', j' | 0 <= i' < 4 && 0 <= j' < j :: temp[4 * i' + j'] == Entry(x, y, i', j')
    {
      for i := 0 to 4
        invariant forall i', j' | 0 <= i' < 4 && 0 <= j' < j :: temp[4 * i' + j'] == Entry(x, y, i', j')
        invariant forall i' | 0 <= i' < i :: temp[4 * i' + j] == Entry(x, y, i', j)
      {
        temp[4 * i + j] := mem'[a + j] * mem'[b + 4 * i] +
                           mem'[a + 4 + j] * mem'[b + 4 * i + 1] +
                           mem'[a + 8 + j] * mem'[b + 4 * i + 2] +
                           mem'[a + 12 + j] * mem'[b + 4 * i + 3];
        EntryInMemory(mem, a, b, i, j);
      }
    }
    ghost var m := Multiply(x, y);
    forall n | 0 <= n < 16
      ensures temp[n] == Cells(m)[n]
    {
      var i, j := n / 4, n % 4;
      assert n == 4 * i + j;
      MultiplyAt(x, y, i, j);
      AtIsCell(m, i, j);
    }
    for n := 0 to 16
      invariant |mem'| == |mem|
      invariant forall k | 0 <= k < n :: mem'[result + k] == temp[k]
      invariant forall p | 0 <= p < |mem| && !(result <= p < result + n) :: mem'[p] == mem[p]
    {
      mem' := mem'[result + n := temp[n]];
    }
    assert mem'[result..result + 16] == Cells(m);
    MultiplyIsReversedProduct(x, y);
  }
}

/**
 Three-dimensional vectors and 3×3 matrices over the reals: the numpy
 operations the local rotation uses (`np.eye(3)`, entry assignment
 `m[i, j] = v`, `np.matmul`, `np.dot` of a matrix and a column) and the
 algebra needed to reason about rotations built from them.
 */
module Geometry {

  /** Index of a coordinate axis: 0 is x, 1 is y, 2 is z. */
  type Axis = i: int | 0 <= i < 3

  /** A point of the cloud, or one column of a 3×N array. */
  datatype Vec3 = Vec3(x: real, y: real, z: real) {

    function At(i: Axis): real {
      if i == 0 then x else if i == 1 then y else z
    }
  }

  function Dot(a: Vec3, b: Vec3): real {
    a.x * b.x + a.y * b.y + a.z * b.z
  }

  /** A 3×3 matrix stored by rows. */
  datatype Mat3 = Mat3(r0: Vec3, r1: Vec3, r2: Vec3) {

    function Row(i: Axis): Vec3 {
      if i == 0 then r0 else if i == 1 then r1 else r2
    }

    function Col(j: Axis): Vec3 {
      Vec3(r0.At(j), r1.At(j), r2.At(j))
    }

    function At(i: Axis, j: Axis): real {
      Row(i).At(j)
    }

    /** The matrix after numpy's entry assignment `m[i, j] = v`. */
    function Set(i: Axis, j: Axis, v: real): (m: Mat3)
      ensures m.At(i, j) == v
      ensures forall k: Axis, l: Axis :: !(k == i && l == j) ==> m.At(k, l) == At(k, l)
    {
      var row := Row(i);
      var row' := if j == 0 then Vec3(v, row.y, row.z)
                  else if j == 1 then Vec3(row.x, v, row.z)
                  else Vec3(row.x, row.y, v);
      if i == 0 then Mat3(row', r1, r2)
      else if i == 1 then Mat3(r0, row', r2)
      else Mat3(r0, r1, row')
    }
  }

  /** `np.eye(3)` */
  function Eye(): (m: Mat3)
    ensures forall i: Axis, j: Axis :: m.At(i, j) == if i == j then 1.0 else 0.0
  {
    Mat3(Vec3(1.0, 0.0, 0.0), Vec3(0.0, 1.0, 0.0), Vec3(0.0, 0.0, 1.0))
  }

  /** Matrix product `np.matmul(a, b)`: entry (i, j) is row i of a times column j of b. */
  function Mul(a: Mat3, b: Mat3): Mat3 {
    Mat3(
      Vec3(Dot(a.r0, b.Col(0)), Dot(a.r0, b.Col(1)), Dot(a.r0, b.Col(2))),
      Vec3(Dot(a.r1, b.Col(0)), Dot(a.r1, b.Col(1)), Dot(a.r1, b.Col(2))),
      Vec3(Dot(a.r2, b.Col(0)), Dot(a.r2, b.Col(1)), Dot(a.r2, b.Col(2))))
  }

  /** Matrix times column vector, `np.dot(m, v)` for a 3-vector v. */
  function Apply(m: Mat3, v: Vec3): Vec3 {
    Vec3(Dot(m.r0, v), Dot(m.r1, v), Dot(m.r2, v))
  }

  function Transpose(m: Mat3): Mat3 {
    Mat3(m.Col(0), m.Col(1), m.Col(2))
  }

  /** An orthonormal matrix: its transpose is its inverse on both sides. */
  predicate Orthonormal(m: Mat3) {
    Mul(m, Transpose(m)) == Eye() && Mul(Transpose(m), m) == Eye()
  }

  /** A matrix whose rows are orthonormal and whose columns are orthonormal is orthonormal. */
  lemma OrthonormalByRowsAndCols(m: Mat3)
    requires Dot(m.r0, m.r0) == 1.0 && Dot(m.r1, m.r1) == 1.0 && Dot(m.r2, m.r2) == 1.0
    requires Dot(m.r0, m.r1) == 0.0 && Dot(m.r0, m.r2) == 0.0 && Dot(m.r1, m.r2) == 0.0
    requires Dot(m.Col(0), m.Col(0)) == 1.0 && Dot(m.Col(1), m.Col(1)) == 1.0 && Dot(m.Col(2), m.Col(2)) == 1.0
    requires Dot(m.Col(0), m.Col(1)) == 0.0 && Dot(m.Col(0), m.Col(2)) == 0.0 && Dot(m.Col(1), m.Col(2)) == 0.0
    ensures Orthonormal(m)
  {
    var t := Transpose(m);
    assert t.Col(0) == m.r0 && t.Col(1) == m.r1 && t.Col(2) == m.r2;
    DotSymmetric(m.r0, m.r1);
    DotSymmetric(m.r0, m.r2);
    DotSymmetric(m.r1, m.r2);
    DotSymmetric(m.Col(0), m.Col(1));
    DotSymmetric(m.Col(0), m.Col(2));
    DotSymmetric(m.Col(1), m.Col(2));
  }

  lemma DotSymmetric(a: Vec3, b: Vec3)
    ensures Dot(a, b) == Dot(b, a)
  {
  }

  /** Applying a product applies its right factor first. */
  lemma ApplyMul(a: Mat3, b: Mat3, v: Vec3)
    ensures Apply(Mul(a, b), v) == Apply(a, Apply(b, v))
  {
  }

  /** Row vector times matrix, then dotted with w, equals u dotted with the matrix times w. */
  lemma DotAssoc(u: Vec3, b: Mat3, w: Vec3)
    ensures Dot(Vec3(Dot(u, b.Col(0)), Dot(u, b.Col(1)), Dot(u, b.Col(2))), w) == Dot(u, Apply(b, w))
  {
  }

  /** Two matrices that agree entry by entry are equal. */
  lemma Ext(m: Mat3, n: Mat3)
    requires forall i: Axis, j: Axis :: m.At(i, j) == n.At(i, j)
    ensures m == n
  {
    assert m.At(0, 0) == n.At(0, 0) && m.At(0, 1) == n.At(0, 1) && m.At(0, 2) == n.At(0, 2);
    assert m.At(1, 0) == n.At(1, 0) && m.At(1, 1) == n.At(1, 1) && m.At(1, 2) == n.At(1, 2);
    assert m.At(2, 0) == n.At(2, 0) && m.At(2, 1) == n.At(2, 1) && m.At(2, 2) == n.At(2, 2);
  }

  lemma MulAssoc(a: Mat3, b: Mat3, c: Mat3)
    ensures Mul(Mul(a, b), c) == Mul(a, Mul(b, c))
  {
    forall i: Axis, j: Axis
      ensures Mul(Mul(a, b), c).At(i, j) == Mul(a, Mul(b, c)).At(i, j)
    {
      DotAssoc(a.Row(i), b, c.Col(j));
    }
    Ext(Mul(Mul(a, b), c), Mul(a, Mul(b, c)));
  }

  lemma MulEye(a: Mat3)
    ensures Mul(a, Eye()) == a && Mul(Eye(), a) == a
  {
  }

  lemma TransposeMul(a: Mat3, b: Mat3)
    ensures Transpose(Mul(a, b)) == Mul(Transpose(b), Transpose(a))
  {
  }
}

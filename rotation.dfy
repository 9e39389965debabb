/**
 The rotation matrix of `LocalRotate._build_rotation_matrix`: three
 elementary rotations, one per axis, each filled entry by entry into an
 identity matrix, composed as Z · (Y · X).

 The cosine and sine of an angle are not computed here: the caller supplies
 them as a `Trig` pair of real functions, and orthonormality is proved under
 the hypothesis cos(t)² + sin(t)² = 1 for the angles involved.
 */
module Rotation {
  import opened Geometry

  /** The trigonometric functions `np.cos` and `np.sin`, as supplied by the caller. */
  datatype Trig = Trig(cos: real -> real, sin: real -> real)

  /** The Pythagorean identity for one angle. */
  predicate UnitAngle(trig: Trig, t: real) {
    trig.cos(t) * trig.cos(t) + trig.sin(t) * trig.sin(t) == 1.0
  }

  /** Elementary rotation about the x axis (axis 0) with cosine c and sine s. */
  function RotX(c: real, s: real): (m: Mat3)
    ensures m.Row(0) == Vec3(1.0, 0.0, 0.0) && m.Col(0) == Vec3(1.0, 0.0, 0.0)
    ensures m.At(1, 1) == c && m.At(2, 2) == c
    ensures m.At(1, 2) == -s && m.At(2, 1) == s
  {
    var m := Eye().Set(1, 1, c);
    var m := m.Set(1, 2, -s);
    var m := m.Set(2, 1, -m.At(1, 2));
    m.Set(2, 2, m.At(1, 1))
  }

  /**
   Elementary rotation about the y axis (axis 1): the sine sits at (0, 2) and
   its negation at (2, 0), as in the usual right-handed form.
   */
  function RotY(c: real, s: real): (m: Mat3)
    ensures m.Row(1) == Vec3(0.0, 1.0, 0.0) && m.Col(1) == Vec3(0.0, 1.0, 0.0)
    ensures m.At(0, 0) == c && m.At(2, 2) == c
    ensures m.At(0, 2) == s && m.At(2, 0) == -s
  {
    var m := Eye().Set(0, 0, c);
    var m := m.Set(0, 2, s);
    var m := m.Set(2, 0, -m.At(0, 2));
    m.Set(2, 2, m.At(0, 0))
  }

  /** Elementary rotation about the z axis (axis 2). */
  function RotZ(c: real, s: real): (m: Mat3)
    ensures m.Row(2) == Vec3(0.0, 0.0, 1.0) && m.Col(2) == Vec3(0.0, 0.0, 1.0)
    ensures m.At(0, 0) == c && m.At(1, 1) == c
    ensures m.At(0, 1) == -s && m.At(1, 0) == s
  {
    var m := Eye().Set(0, 0, c);
    var m := m.Set(0, 1, -s);
    var m := m.Set(1, 0, -m.At(0, 1));
    m.Set(1, 1, m.At(0, 0))
  }

  /** The three factors for the angles (θx, θy, θz) = (p.x, p.y, p.z). */
  function FactorX(trig: Trig, p: Vec3): Mat3 { RotX(trig.cos(p.x), trig.sin(p.x)) }
  function FactorY(trig: Trig, p: Vec3): Mat3 { RotY(trig.cos(p.y), trig.sin(p.y)) }
  function FactorZ(trig: Trig, p: Vec3): Mat3 { RotZ(trig.cos(p.z), trig.sin(p.z)) }

  /** `_build_rotation_matrix(parameters)` for the angle column p. */
  function BuildRotationMatrix(trig: Trig, p: Vec3): Mat3 {
    Mul(FactorZ(trig, p), Mul(FactorY(trig, p), FactorX(trig, p)))
  }

  /** Each elementary rotation leaves the coordinate of its own axis unchanged. */
  lemma ElementaryFixesAxis(c: real, s: real, v: Vec3)
    ensures Apply(RotX(c, s), v).x == v.x
    ensures Apply(RotY(c, s), v).y == v.y
    ensures Apply(RotZ(c, s), v).z == v.z
  {
  }

  /** With cos² + sin² = 1 for its angle, each factor is orthonormal. */
  lemma FactorXOrthonormal(trig: Trig, p: Vec3)
    requires UnitAngle(trig, p.x)
    ensures Orthonormal(FactorX(trig, p))
  {
    var c, s := trig.cos(p.x), trig.sin(p.x);
    var m := Mat3(Vec3(1.0, 0.0, 0.0), Vec3(0.0, c, -s), Vec3(0.0, s, c));
    assert FactorX(trig, p) == m;
    assert Dot(m.r1, m.r1) == 1.0 && Dot(m.r2, m.r2) == 1.0 && Dot(m.r1, m.r2) == 0.0;
    assert m.Col(1) == Vec3(0.0, c, s) && m.Col(2) == Vec3(0.0, -s, c);
    assert Dot(m.Col(1), m.Col(1)) == 1.0 && Dot(m.Col(2), m.Col(2)) == 1.0 && Dot(m.Col(1), m.Col(2)) == 0.0;
    OrthonormalByRowsAndCols(m);
  }

  lemma FactorYOrthonormal(trig: Trig, p: Vec3)
    requires UnitAngle(trig, p.y)
    ensures Orthonormal(FactorY(trig, p))
  {
    var c, s := trig.cos(p.y), trig.sin(p.y);
    var m := Mat3(Vec3(c, 0.0, s), Vec3(0.0, 1.0, 0.0), Vec3(-s, 0.0, c));
    assert FactorY(trig, p) == m;
    assert Dot(m.r0, m.r0) == 1.0 && Dot(m.r2, m.r2) == 1.0 && Dot(m.r0, m.r2) == 0.0;
    assert m.Col(0) == Vec3(c, 0.0, -s) && m.Col(2) == Vec3(s, 0.0, c);
    assert Dot(m.Col(0), m.Col(0)) == 1.0 && Dot(m.Col(2), m.Col(2)) == 1.0 && Dot(m.Col(0), m.Col(2)) == 0.0;
    OrthonormalByRowsAndCols(m);
  }

  lemma FactorZOrthonormal(trig: Trig, p: Vec3)
    requires UnitAngle(trig, p.z)
    ensures Orthonormal(FactorZ(trig, p))
  {
    var c, s := trig.cos(p.z), trig.sin(p.z);
    var m := Mat3(Vec3(c, -s, 0.0), Vec3(s, c, 0.0), Vec3(0.0, 0.0, 1.0));
    assert FactorZ(trig, p) == m;
    assert Dot(m.r0, m.r0) == 1.0 && Dot(m.r1, m.r1) == 1.0 && Dot(m.r0, m.r1) == 0.0;
    assert m.Col(0) == Vec3(c, s, 0.0) && m.Col(1) == Vec3(-s, c, 0.0);
    assert Dot(m.Col(0), m.Col(0)) == 1.0 && Dot(m.Col(1), m.Col(1)) == 1.0 && Dot(m.Col(0), m.Col(1)) == 0.0;
    OrthonormalByRowsAndCols(m);
  }

  /** Orthonormal matrices are closed under products. */
  lemma OrthonormalMul(a: Mat3, b: Mat3)
    requires Orthonormal(a) && Orthonormal(b)
    ensures Orthonormal(Mul(a, b))
  {
    var ab := Mul(a, b);
    TransposeMul(a, b);
    calc {
      Mul(ab, Transpose(ab));
      Mul(Mul(a, b), Mul(Transpose(b), Transpose(a)));
      { MulAssoc(a, b, Mul(Transpose(b), Transpose(a))); }
      Mul(a, Mul(b, Mul(Transpose(b), Transpose(a))));
      { MulAssoc(b, Transpose(b), Transpose(a)); }
      Mul(a, Mul(Mul(b, Transpose(b)), Transpose(a)));
      { MulEye(Transpose(a)); }
      Mul(a, Transpose(a));
    }
    calc {
      Mul(Transpose(ab), ab);
      Mul(Mul(Transpose(b), Transpose(a)), Mul(a, b));
      { MulAssoc(Transpose(b), Transpose(a), Mul(a, b)); }
      Mul(Transpose(b), Mul(Transpose(a), Mul(a, b)));
      { MulAssoc(Transpose(a), a, b); }
      Mul(Transpose(b), Mul(Mul(Transpose(a), a), b));
      { MulEye(b); }
      Mul(Transpose(b), b);
    }
  }

  /**
   When cos² + sin² = 1 holds for each of the three angles, the built matrix
   is a rotation: its transpose is its inverse.
   */
  lemma RotationOrthonormal(trig: Trig, p: Vec3)
    requires UnitAngle(trig, p.x) && UnitAngle(trig, p.y) && UnitAngle(trig, p.z)
    ensures Orthonormal(BuildRotationMatrix(trig, p))
  {
    FactorXOrthonormal(trig, p);
    FactorYOrthonormal(trig, p);
    FactorZOrthonormal(trig, p);
    ComposedOrthonormal(FactorZ(trig, p), FactorY(trig, p), FactorX(trig, p));
  }

  lemma ComposedOrthonormal(z: Mat3, y: Mat3, x: Mat3)
    requires Orthonormal(z) && Orthonormal(y) && Orthonormal(x)
    ensures Orthonormal(Mul(z, Mul(y, x)))
  {
    OrthonormalMul(y, x);
    OrthonormalMul(z, Mul(y, x));
  }

  /**
   The composition order: applying the built matrix to a point rotates it
   about x first, then about y, then about z.
   */
  lemma RotationOrder(trig: Trig, p: Vec3, v: Vec3)
    ensures Apply(BuildRotationMatrix(trig, p), v)
         == Apply(FactorZ(trig, p), Apply(FactorY(trig, p), Apply(FactorX(trig, p), v)))
  {
    ApplyMul(FactorZ(trig, p), Mul(FactorY(trig, p), FactorX(trig, p)), v);
    ApplyMul(FactorY(trig, p), FactorX(trig, p), Apply(FactorX(trig, p), v));
    ApplyMul(FactorY(trig, p), FactorX(trig, p), v);
  }

  /** The bracketing Z · (Y · X) does not matter: it equals (Z · Y) · X. */
  lemma RotationBracketing(trig: Trig, p: Vec3)
    ensures BuildRotationMatrix(trig, p) == Mul(Mul(FactorZ(trig, p), FactorY(trig, p)), FactorX(trig, p))
  {
    MulAssoc(FactorZ(trig, p), FactorY(trig, p), FactorX(trig, p));
  }
}

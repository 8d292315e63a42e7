/** Rotation quaternions over `real`, standing in for three.js's `Quaternion`:
    `setFromAxisAngle`, `multiplyQuaternions` (which `premultiply` uses) and
    `Vector3.applyQuaternion`, each written with the same component formulas. */
module Quaternions {
  import opened Vectors
  import opened Maths

  datatype Quat = Quat(x: real, y: real, z: real, w: real)

  /** The orientation every mesh starts with. */
  const Identity: Quat := Quat(0.0, 0.0, 0.0, 1.0)

  function NormSq(q: Quat): real {
    q.x * q.x + q.y * q.y + q.z * q.z + q.w * q.w
  }

  lemma IdentityUnit()
    ensures NormSq(Identity) == 1.0
  {
  }

  /** `setFromAxisAngle(axis, angle)`: (axis * sin(angle/2), cos(angle/2)).
      A unit axis gives a unit quaternion, and angle 0 gives the identity
      whatever the axis is, even the zero axis that normalising a zero cross
      product yields. */
  function FromAxisAngle(m: MathLib, axis: Vec3, angle: real): (q: Quat)
    requires Lawful(m)
    ensures LengthSq(axis) == 1.0 ==> NormSq(q) == 1.0
    ensures angle == 0.0 ==> q == Identity
    ensures axis == Zero ==> q.x == 0.0 && q.y == 0.0 && q.z == 0.0
  {
    var s := m.sin(angle / 2.0);
    var c := m.cos(angle / 2.0);
    SinCos(m, angle / 2.0);
    UnitAxisAngle(axis, s, c);
    AxisQuat(axis, s, c)
  }

  /** The quaternion of an axis and the sine and cosine of half the angle. */
  function AxisQuat(axis: Vec3, s: real, c: real): Quat {
    Quat(axis.x * s, axis.y * s, axis.z * s, c)
  }

  lemma AxisAngleComponents(m: MathLib, axis: Vec3, angle: real)
    requires Lawful(m)
    ensures FromAxisAngle(m, axis, angle) == AxisQuat(axis, m.sin(angle / 2.0), m.cos(angle / 2.0))
  {
  }

  lemma UnitAxisAngle(axis: Vec3, s: real, c: real)
    requires s * s + c * c == 1.0
    ensures LengthSq(axis) == 1.0 ==> NormSq(AxisQuat(axis, s, c)) == 1.0
  {
    if LengthSq(axis) == 1.0 {
      LengthSqScaleUnit(s, axis);
      assert Scale(s, axis) == Vec3(s * axis.x, s * axis.y, s * axis.z);
      assert axis.x * s == s * axis.x && axis.y * s == s * axis.y && axis.z * s == s * axis.z;
    }
  }

  /** `multiplyQuaternions(a, b)`, the Hamilton product a * b. `premultiply(q)`
      replaces `this` with `q * this`. */
  function Multiply(a: Quat, b: Quat): (r: Quat)
    ensures NormSq(r) == NormSq(a) * NormSq(b)
  {
    FourSquares(a, b);
    Quat(
      a.x * b.w + a.w * b.x + a.y * b.z - a.z * b.y,
      a.y * b.w + a.w * b.y + a.z * b.x - a.x * b.z,
      a.z * b.w + a.w * b.z + a.x * b.y - a.y * b.x,
      a.w * b.w - a.x * b.x - a.y * b.y - a.z * b.z)
  }

  /** The identity rotation changes nothing it is composed with. */
  lemma MultiplyIdentity(q: Quat)
    ensures Multiply(Identity, q) == q && Multiply(q, Identity) == q
  {
  }

  /** Euler's four-square identity: the norm of a product is the product of
      the norms. */
  lemma FourSquares(a: Quat, b: Quat)
    ensures NormSq(Quat(
      a.x * b.w + a.w * b.x + a.y * b.z - a.z * b.y,
      a.y * b.w + a.w * b.y + a.z * b.x - a.x * b.z,
      a.z * b.w + a.w * b.z + a.x * b.y - a.y * b.x,
      a.w * b.w - a.x * b.x - a.y * b.y - a.z * b.z)) == NormSq(a) * NormSq(b)
  {
    var r := Quat(
      a.x * b.w + a.w * b.x + a.y * b.z - a.z * b.y,
      a.y * b.w + a.w * b.y + a.z * b.x - a.x * b.z,
      a.z * b.w + a.w * b.z + a.x * b.y - a.y * b.x,
      a.w * b.w - a.x * b.x - a.y * b.y - a.z * b.z);
    EulerFour(a.x, a.y, a.z, a.w, b.x, b.y, b.z, b.w, r.x, r.y, r.z, r.w, NormSq(a), NormSq(b));
  }

  /** The four-square identity on plain numbers: `p1`..`p4` are the
      components of the product and `na`, `nb` the two squared norms. */
  lemma EulerFour(a1: real, a2: real, a3: real, a4: real, b1: real, b2: real, b3: real, b4: real,
                  p1: real, p2: real, p3: real, p4: real, na: real, nb: real)
    requires p1 == a1 * b4 + a4 * b1 + a2 * b3 - a3 * b2
    requires p2 == a2 * b4 + a4 * b2 + a3 * b1 - a1 * b3
    requires p3 == a3 * b4 + a4 * b3 + a1 * b2 - a2 * b1
    requires p4 == a4 * b4 - a1 * b1 - a2 * b2 - a3 * b3
    requires na == a1 * a1 + a2 * a2 + a3 * a3 + a4 * a4
    requires nb == b1 * b1 + b2 * b2 + b3 * b3 + b4 * b4
    ensures p1 * p1 + p2 * p2 + p3 * p3 + p4 * p4 == na * nb
  {
  }

  /** `Vector3.applyQuaternion(q)`: v + w t + q.xyz x t with t = 2 (q.xyz x v). */
  function Rotate(v: Vec3, q: Quat): (r: Vec3)
    ensures q == Identity ==> r == v
    ensures NormSq(q) == 1.0 ==> LengthSq(r) == LengthSq(v)
    ensures q.x == 0.0 && q.y == 0.0 && q.z == 0.0 ==> r == v
  {
    var u := Vec3(q.x, q.y, q.z);
    var t := Scale(2.0, Cross(u, v));
    RotationCases(v, q);
    Add(Add(v, Scale(q.w, t)), Cross(u, t))
  }

  /** The two cases in which `applyQuaternion` is known not to stretch: a
      unit quaternion keeps the length, and a quaternion without a vector
      part changes nothing. */
  lemma RotationCases(v: Vec3, q: Quat)
    ensures var u := Vec3(q.x, q.y, q.z); var t := Scale(2.0, Cross(u, v));
      var r := Add(Add(v, Scale(q.w, t)), Cross(u, t));
      && (NormSq(q) == 1.0 ==> LengthSq(r) == LengthSq(v))
      && (u == Zero ==> r == v)
  {
    if NormSq(q) == 1.0 {
      RotationPreservesLength(v, q);
    }
    if Vec3(q.x, q.y, q.z) == Zero {
      NoVectorPart(v, q.w);
    }
  }

  /** Rotation is linear: scaling the vector scales its image. */
  lemma RotateScale(v: Vec3, q: Quat, k: real)
    ensures Rotate(Scale(k, v), q) == Scale(k, Rotate(v, q))
  {
    var u := Vec3(q.x, q.y, q.z);
    var t := Scale(2.0, Cross(u, v));
    RotateBody(v, q);
    RotateBody(Scale(k, v), q);
    TwistScales(u, v, k);
    ScaleSwap(q.w, k, t);
    CrossScaleRight(k, u, t);
    ScaleAdd(k, v, Scale(q.w, t));
    ScaleAdd(k, Add(v, Scale(q.w, t)), Cross(u, t));
  }

  /** The vector t = 2 (u x v) that `applyQuaternion` builds scales with `v`. */
  lemma TwistScales(u: Vec3, v: Vec3, k: real)
    ensures Scale(2.0, Cross(u, Scale(k, v))) == Scale(k, Scale(2.0, Cross(u, v)))
  {
    CrossScaleRight(k, u, v);
    ScaleSwap(2.0, k, Cross(u, v));
  }

  /** `s` and `c` are the sine and cosine of half an angle whose cosine is
      `cosine` and whose sine is `sine`: 1 - 2 s^2 and 2 s c. */
  predicate HalfTurn(s: real, c: real, cosine: real, sine: real) {
    1.0 - 2.0 * s * s == cosine && 2.0 * s * c == sine
  }

  /** `applyQuaternion` by the quaternion of a unit axis `u` and half-angle
      sine and cosine `s` and `c`, on a vector `v` perpendicular to the axis:
      Rodrigues' formula, v cos + (u x v) sin. */
  lemma RotatePerpendicular(v: Vec3, u: Vec3, s: real, c: real, cosine: real, sine: real)
    requires LengthSq(u) == 1.0 && Dot(u, v) == 0.0
    requires HalfTurn(s, c, cosine, sine)
    ensures Rotate(v, AxisQuat(u, s, c)) == Add(Scale(cosine, v), Scale(sine, Cross(u, v)))
  {
    RotateHalves(v, u, s, c);
  }

  lemma RotateHalves(v: Vec3, u: Vec3, s: real, c: real)
    requires LengthSq(u) == 1.0 && Dot(u, v) == 0.0
    ensures Rotate(v, AxisQuat(u, s, c))
      == Add(Scale(1.0 - 2.0 * s * s, v), Scale(2.0 * s * c, Cross(u, v)))
  {
    var q := AxisQuat(u, s, c);
    var a := Vec3(q.x, q.y, q.z);
    var x := Cross(u, v);
    var t := Scale(2.0, Cross(a, v));
    RotateBody(v, q);
    // the vector part is s u, so t = 2 s (u x v)
    assert a == Scale(s, u);
    CrossScaleLeft(s, u, v);
    ScaleScale(2.0, s, x);
    assert t == Scale(2.0 * s, x);
    ScaleScale(c, 2.0 * s, x);
    assert Scale(c, t) == Scale(c * (2.0 * s), x);
    assert c * (2.0 * s) == 2.0 * s * c;
    // u x (u x v) = -v, since u is a unit vector perpendicular to v
    CrossUnitTwice(u, v);
    CrossScaleLeft(s, u, t);
    CrossScaleRight(2.0 * s, u, x);
    PerpendicularTerm(v, x, s, c);
  }

  /** Crossing twice with a unit vector perpendicular to `v` negates `v`. */
  lemma CrossUnitTwice(u: Vec3, v: Vec3)
    requires LengthSq(u) == 1.0 && Dot(u, v) == 0.0
    ensures Cross(u, Cross(u, v)) == Scale(-1.0, v)
  {
    CrossCrossLeft(u, v);
    ScaleByOne(LengthSq(u), v);
    ScaleByZero(Dot(u, v), u);
    assert Sub(v, Zero) == v;
    CrossSwap(Cross(u, v), u);
  }

  /** The last step of `RotateHalves`: gathering the multiples of `v`. */
  lemma PerpendicularTerm(v: Vec3, x: Vec3, s: real, c: real)
    ensures Add(Add(v, Scale(2.0 * s * c, x)), Scale(s, Scale(2.0 * s, Scale(-1.0, v))))
      == Add(Scale(1.0 - 2.0 * s * s, v), Scale(2.0 * s * c, x))
  {
    var k := s * (2.0 * s) * -1.0;
    ScaleScale(s, 2.0 * s, Scale(-1.0, v));
    ScaleScale(s * (2.0 * s), -1.0, v);
    assert 1.0 + k == 1.0 - 2.0 * s * s;
    AddScaled(v, Scale(2.0 * s * c, x), k);
  }

  /** What `Rotate` computes, whatever the quaternion. */
  lemma RotateBody(v: Vec3, q: Quat)
    ensures var u := Vec3(q.x, q.y, q.z); var t := Scale(2.0, Cross(u, v));
      Rotate(v, q) == Add(Add(v, Scale(q.w, t)), Cross(u, t))
  {
  }

  /** A quaternion with no vector part leaves every vector where it is. */
  lemma NoVectorPart(v: Vec3, w: real)
    ensures Add(Add(v, Scale(w, Scale(2.0, Cross(Zero, v)))), Cross(Zero, Scale(2.0, Cross(Zero, v)))) == v
  {
    assert Cross(Zero, v) == Zero;
    assert Scale(2.0, Zero) == Zero;
    assert Scale(w, Zero) == Zero;
    assert Cross(Zero, Zero) == Zero;
  }

  lemma RotationPreservesLength(v: Vec3, q: Quat)
    requires NormSq(q) == 1.0
    ensures
      var u := Vec3(q.x, q.y, q.z);
      var t := Scale(2.0, Cross(u, v));
      LengthSq(Add(Add(v, Scale(q.w, t)), Cross(u, t))) == LengthSq(v)
  {
    var u := Vec3(q.x, q.y, q.z);
    var c := Cross(u, v);
    var t := Scale(2.0, c);
    var a, b := Scale(q.w, t), Cross(u, t);
    var p := Add(a, b);
    assert Add(Add(v, a), b) == Add(v, p);
    var C, U, W := LengthSq(c), LengthSq(u), q.w * q.w;
    assert W + U == 1.0;
    // |t|^2 = 4 |c|^2 and t.c = 2 |c|^2
    LengthSqScale(2.0, c);
    assert LengthSq(t) == 4.0 * C;
    DotScaleLeft(2.0, c, c);
    // v.p = v.a + v.b, where v.a = 0 and v.b = -t.c
    DotAddRight(v, a, b);
    DotScaleLeft(q.w, t, v);
    DotScaleLeft(2.0, c, v);
    CrossOrthogonal(u, v);
    DotSymmetric(v, a);
    assert Dot(v, a) == 0.0;
    TripleProductSwap(v, u, t);
    DotSymmetric(t, c);
    assert Dot(v, b) == -2.0 * C;
    // |p|^2 = |a|^2 + 2 a.b + |b|^2, where a.b = 0, |a|^2 = 4 W C, |b|^2 = 4 U C
    LengthSqAdd(a, b);
    DotScaleLeft(q.w, t, b);
    CrossOrthogonal(u, t);
    assert Dot(a, b) == 0.0;
    LengthSqScale(q.w, t);
    assert LengthSq(a) == W * (4.0 * C);
    Lagrange(u, t);
    DotSymmetric(u, t);
    DotScaleLeft(2.0, c, u);
    assert Dot(u, t) == 0.0;
    assert LengthSq(b) == U * (4.0 * C);
    LengthSqAdd(v, p);
    Rebalance(LengthSq(v), C, U, W);
  }

  lemma Rebalance(V: real, C: real, U: real, W: real)
    requires W + U == 1.0
    ensures V + 2.0 * (-2.0 * C) + (W * (4.0 * C) + 2.0 * 0.0 + U * (4.0 * C)) == V
  {
    assert W * (4.0 * C) + U * (4.0 * C) == (W + U) * (4.0 * C);
  }
}

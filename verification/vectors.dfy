/** Exact three-component vectors over `real`, standing in for three.js's
    `Vector3`. Only the operations the scenes use are defined here; the ones
    that need a square root (length, normalisation, angles) live in `Maths`. */
module Vectors {

  datatype Vec3 = Vec3(x: real, y: real, z: real)

  const Zero: Vec3 := Vec3(0.0, 0.0, 0.0)

  function Add(a: Vec3, b: Vec3): Vec3 {
    Vec3(a.x + b.x, a.y + b.y, a.z + b.z)
  }

  function Sub(a: Vec3, b: Vec3): Vec3 {
    Vec3(a.x - b.x, a.y - b.y, a.z - b.z)
  }

  function Scale(k: real, v: Vec3): Vec3 {
    Vec3(k * v.x, k * v.y, k * v.z)
  }

  function Dot(a: Vec3, b: Vec3): real {
    a.x * b.x + a.y * b.y + a.z * b.z
  }

  /** Right-handed cross product, as `Vector3.crossVectors`. */
  function Cross(a: Vec3, b: Vec3): Vec3 {
    Vec3(a.y * b.z - a.z * b.y, a.z * b.x - a.x * b.z, a.x * b.y - a.y * b.x)
  }

  function LengthSq(v: Vec3): real {
    Dot(v, v)
  }

  /** |v|^2 is never negative. */
  lemma LengthSqNonNegative(v: Vec3)
    ensures LengthSq(v) >= 0.0
  {
    SquaresSum(v.x, v.y, v.z);
  }

  lemma SquaresSum(a: real, b: real, c: real)
    ensures a * a + b * b + c * c >= 0.0
    ensures a != 0.0 || b != 0.0 || c != 0.0 ==> a * a + b * b + c * c > 0.0
  {
    Square(a);
    Square(b);
    Square(c);
  }

  lemma Square(a: real)
    ensures a * a >= 0.0
    ensures a != 0.0 ==> a * a > 0.0
  {
    if a > 0.0 {
      MulPositive(a, a);
    } else if a < 0.0 {
      MulPositive(-a, -a);
    }
  }

  lemma MulPositive(a: real, b: real)
    requires a > 0.0 && b > 0.0
    ensures a * b > 0.0
  {
  }

  lemma MulLeftStrict(a: real, b: real, c: real)
    requires a > 0.0 && b < c
    ensures a * b < a * c
  {
  }

  lemma MulRightStrict(a: real, b: real, c: real)
    requires a > 0.0 && b < c
    ensures b * a < c * a
  {
  }

  lemma LengthSqScale(k: real, v: Vec3)
    ensures LengthSq(Scale(k, v)) == k * k * LengthSq(v)
  {
    assert k * v.x * (k * v.x) == k * k * (v.x * v.x);
    assert k * v.y * (k * v.y) == k * k * (v.y * v.y);
    assert k * v.z * (k * v.z) == k * k * (v.z * v.z);
  }

  lemma LengthSqScaleUnit(k: real, v: Vec3)
    requires LengthSq(v) == 1.0
    ensures LengthSq(Scale(k, v)) == k * k
  {
    LengthSqScale(k, v);
    MulOne(k * k, LengthSq(v));
  }

  lemma MulOne(a: real, b: real)
    requires b == 1.0
    ensures a * b == a
  {
  }

  lemma ScaleInverse(k: real, v: Vec3)
    requires k != 0.0
    ensures Scale(1.0 / k, Scale(k, v)) == v
  {
    var q := 1.0 / k;
    assert q * k == 1.0;
    assert q * (k * v.x) == (q * k) * v.x;
    assert q * (k * v.y) == (q * k) * v.y;
    assert q * (k * v.z) == (q * k) * v.z;
  }

  /** 2 a.b <= |a|^2 + |b|^2 and -2 a.b <= |a|^2 + |b|^2, because |a - b|^2 >= 0
      and |a + b|^2 >= 0. */
  lemma DotBound(a: Vec3, b: Vec3)
    ensures 2.0 * Dot(a, b) <= LengthSq(a) + LengthSq(b)
    ensures -2.0 * Dot(a, b) <= LengthSq(a) + LengthSq(b)
  {
    var d, s := Sub(a, b), Add(a, b);
    LengthSqNonNegative(d);
    LengthSqNonNegative(s);
    assert LengthSq(d) == LengthSq(a) - 2.0 * Dot(a, b) + LengthSq(b);
    assert LengthSq(s) == LengthSq(a) + 2.0 * Dot(a, b) + LengthSq(b);
  }

  lemma LengthSqAdd(a: Vec3, b: Vec3)
    ensures LengthSq(Add(a, b)) == LengthSq(a) + 2.0 * Dot(a, b) + LengthSq(b)
  {
  }

  lemma DotSymmetric(a: Vec3, b: Vec3)
    ensures Dot(a, b) == Dot(b, a)
  {
  }

  lemma DotScaleLeft(k: real, a: Vec3, b: Vec3)
    ensures Dot(Scale(k, a), b) == k * Dot(a, b)
  {
  }

  lemma DotAddRight(a: Vec3, b: Vec3, c: Vec3)
    ensures Dot(a, Add(b, c)) == Dot(a, b) + Dot(a, c)
  {
  }

  /** A cross product is orthogonal to both its factors. */
  lemma CrossOrthogonal(a: Vec3, b: Vec3)
    ensures Dot(a, Cross(a, b)) == 0.0 && Dot(b, Cross(a, b)) == 0.0
  {
  }

  /** The scalar triple product changes sign when two factors swap. */
  lemma TripleProductSwap(a: Vec3, b: Vec3, c: Vec3)
    ensures Dot(a, Cross(b, c)) == -Dot(c, Cross(b, a))
  {
  }

  /** (a x b) x a = |a|^2 b - (a.b) a. */
  lemma CrossCrossLeft(a: Vec3, b: Vec3)
    ensures Cross(Cross(a, b), a) == Sub(Scale(LengthSq(a), b), Scale(Dot(a, b), a))
  {
    var l, r := Cross(Cross(a, b), a), Sub(Scale(LengthSq(a), b), Scale(Dot(a, b), a));
    var L, D := LengthSq(a), Dot(a, b);
    CrossCrossTerm(a.x, a.y, a.z, b.x, b.y, b.z, L, D);
    CrossCrossTerm(a.y, a.z, a.x, b.y, b.z, b.x, L, D);
    CrossCrossTerm(a.z, a.x, a.y, b.z, b.x, b.y, L, D);
    assert l.x == r.x;
    assert l.y == r.y;
    assert l.z == r.z;
  }

  /** One coordinate of `CrossCrossLeft`, on plain numbers. */
  lemma CrossCrossTerm(a1: real, a2: real, a3: real, b1: real, b2: real, b3: real, L: real, D: real)
    requires L == a1 * a1 + a2 * a2 + a3 * a3 && D == a1 * b1 + a2 * b2 + a3 * b3
    ensures (a3 * b1 - a1 * b3) * a3 - (a1 * b2 - a2 * b1) * a2 == L * b1 - D * a1
  {
  }

  lemma ScaleScale(a: real, b: real, v: Vec3)
    ensures Scale(a, Scale(b, v)) == Scale(a * b, v)
  {
    var bv := Scale(b, v);
    ScaledTwice(a, b, v.x, bv.x);
    ScaledTwice(a, b, v.y, bv.y);
    ScaledTwice(a, b, v.z, bv.z);
  }

  lemma ScaleSwap(a: real, b: real, v: Vec3)
    ensures Scale(a, Scale(b, v)) == Scale(b, Scale(a, v))
  {
    var av, bv := Scale(a, v), Scale(b, v);
    ScaledTwice(a, b, v.x, bv.x);
    ScaledTwice(b, a, v.x, av.x);
    ScaledTwice(a, b, v.y, bv.y);
    ScaledTwice(b, a, v.y, av.y);
    ScaledTwice(a, b, v.z, bv.z);
    ScaledTwice(b, a, v.z, av.z);
  }

  lemma ScaledTwice(a: real, b: real, w: real, bw: real)
    requires bw == b * w
    ensures a * bw == (a * b) * w
  {
  }

  lemma ScaleByOne(k: real, v: Vec3)
    requires k == 1.0
    ensures Scale(k, v) == v
  {
    MulOne(v.x, k);
    MulOne(v.y, k);
    MulOne(v.z, k);
  }

  lemma ScaleByZero(k: real, v: Vec3)
    requires k == 0.0
    ensures Scale(k, v) == Zero
  {
  }

  /** v + a + k v = (1 + k) v + a. */
  lemma AddScaled(v: Vec3, a: Vec3, k: real)
    ensures Add(Add(v, a), Scale(k, v)) == Add(Scale(1.0 + k, v), a)
  {
    var kv, k1v := Scale(k, v), Scale(1.0 + k, v);
    Gathered(v.x, a.x, k, kv.x, k1v.x);
    Gathered(v.y, a.y, k, kv.y, k1v.y);
    Gathered(v.z, a.z, k, kv.z, k1v.z);
  }

  lemma Gathered(w: real, a: real, k: real, kw: real, k1w: real)
    requires kw == k * w && k1w == (1.0 + k) * w
    ensures w + a + kw == k1w + a
  {
  }

  lemma CrossScaleRight(k: real, a: Vec3, b: Vec3)
    ensures Cross(a, Scale(k, b)) == Scale(k, Cross(a, b))
  {
    var kb, c := Scale(k, b), Cross(a, b);
    ScaledDifference(k, b.z, a.y, b.y, a.z, kb.z, kb.y, c.x);
    ScaledDifference(k, b.x, a.z, b.z, a.x, kb.x, kb.z, c.y);
    ScaledDifference(k, b.y, a.x, b.x, a.y, kb.y, kb.x, c.z);
  }

  /** Swapping the factors of a cross product negates it. */
  lemma CrossSwap(a: Vec3, b: Vec3)
    ensures Cross(b, a) == Scale(-1.0, Cross(a, b))
  {
  }

  lemma CrossScaleLeft(k: real, a: Vec3, b: Vec3)
    ensures Cross(Scale(k, a), b) == Scale(k, Cross(a, b))
  {
    var ka, c := Scale(k, a), Cross(a, b);
    ScaledDifference(k, a.y, b.z, a.z, b.y, ka.y, ka.z, c.x);
    ScaledDifference(k, a.z, b.x, a.x, b.z, ka.z, ka.x, c.y);
    ScaledDifference(k, a.x, b.y, a.y, b.x, ka.x, ka.y, c.z);
  }

  /** One coordinate of a cross product with one factor scaled by `k`:
      `kp` and `kr` are the scaled p and r, `d` the unscaled coordinate. */
  lemma ScaledDifference(k: real, p: real, q: real, r: real, s: real, kp: real, kr: real, d: real)
    requires kp == k * p && kr == k * r && d == p * q - r * s
    ensures kp * q - kr * s == k * d
  {
  }

  /** A unit vector `p` plus the part of `n` across it gives `n` back. */
  lemma UnitRecombined(p: Vec3, n: Vec3, d: real, len: real, k: real)
    requires len * k == 1.0
    ensures Add(Scale(d, p), Scale(len, Scale(k, Sub(n, Scale(d, p))))) == n
  {
    var w := Sub(n, Scale(d, p));
    ScaleScale(len, k, w);
    assert Scale(len * k, w) == w;
  }

  /** Lagrange's identity: |a x b|^2 = |a|^2 |b|^2 - (a.b)^2. */
  lemma Lagrange(a: Vec3, b: Vec3)
    ensures LengthSq(Cross(a, b)) == LengthSq(a) * LengthSq(b) - Dot(a, b) * Dot(a, b)
  {
  }

  lemma ScaleAdd(k: real, a: Vec3, b: Vec3)
    ensures Scale(k, Add(a, b)) == Add(Scale(k, a), Scale(k, b))
  {
  }

  lemma DotScaleRight(k: real, a: Vec3, b: Vec3)
    ensures Dot(a, Scale(k, b)) == k * Dot(a, b)
  {
    DotSymmetric(a, Scale(k, b));
    DotScaleLeft(k, b, a);
    DotSymmetric(b, a);
  }
}

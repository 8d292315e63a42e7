/** The host's `Math` object, as the scenes use it.

    JavaScript's `Math.sin`, `Math.cos`, `Math.acos`, `Math.sqrt` and
    `Math.PI` cannot be computed over exact reals, so every member that needs
    them takes a `MathLib` value and requires `Lawful` of it: the handful of
    identities the real functions satisfy and that the proofs rely on. Any
    actual implementation of the real functions is a lawful `MathLib`.

    The vector operations that need a square root are defined here the way
    three.js defines them on `Vector3` (`length`, `normalize`, `angleTo`). */
module Maths {
  import opened Vectors

  datatype MathLib = MathLib(
    pi: real,
    sin: real -> real,
    cos: real -> real,
    acos: real -> real,
    sqrt: real -> real)

  /** The identities of sin, cos, acos and sqrt the model depends on. */
  ghost predicate Lawful(m: MathLib) {
    && 3.14 < m.pi < 3.15
    && (forall t :: m.sin(t) * m.sin(t) + m.cos(t) * m.cos(t) == 1.0)
    && m.sin(0.0) == 0.0 && m.cos(0.0) == 1.0
    && m.sin(m.pi / 2.0) == 1.0 && m.cos(m.pi / 2.0) == 0.0
    && m.sin(-m.pi / 2.0) == -1.0 && m.cos(-m.pi / 2.0) == 0.0
    && m.acos(1.0) == 0.0
    && (forall x :: -1.0 <= x <= 1.0 ==> m.cos(m.acos(x)) == x && 0.0 <= m.sin(m.acos(x)))
    && (forall h {:trigger Twice(h)} ::
          m.sin(Twice(h)) == 2.0 * m.sin(h) * m.cos(h)
          && m.cos(Twice(h)) == m.cos(h) * m.cos(h) - m.sin(h) * m.sin(h))
    && m.sqrt(0.0) == 0.0 && m.sqrt(1.0) == 1.0
    && (forall u :: 0.0 <= u ==> 0.0 <= m.sqrt(u) && m.sqrt(u) * m.sqrt(u) == u)
    && (forall u :: 0.0 < u ==> 0.0 < m.sqrt(u))
  }

  /** Twice an angle; the double-angle identities are stated in its terms. */
  function Twice(h: real): real {
    h + h
  }

  lemma SinCos(m: MathLib, t: real)
    requires Lawful(m)
    ensures m.sin(t) * m.sin(t) + m.cos(t) * m.cos(t) == 1.0
  {
  }

  lemma Sqrt(m: MathLib, u: real)
    requires Lawful(m)
    requires 0.0 <= u
    ensures 0.0 <= m.sqrt(u) && m.sqrt(u) * m.sqrt(u) == u
    ensures 0.0 < u ==> 0.0 < m.sqrt(u)
  {
  }

  /** acos is the inverse of cos on [-1, 1], with values in [0, pi], where
      sin is not negative. */
  lemma AcosInverse(m: MathLib, x: real)
    requires Lawful(m)
    requires -1.0 <= x <= 1.0
    ensures m.cos(m.acos(x)) == x && 0.0 <= m.sin(m.acos(x))
    ensures m.sin(m.acos(x)) * m.sin(m.acos(x)) == 1.0 - x * x
  {
    SinCos(m, m.acos(x));
  }

  /** The double-angle identities, written for the half angle `t / 2`. */
  lemma HalfAngle(m: MathLib, t: real)
    requires Lawful(m)
    ensures var s, c := m.sin(t / 2.0), m.cos(t / 2.0);
      m.sin(t) == 2.0 * s * c && m.cos(t) == 1.0 - 2.0 * s * s
  {
    var h := t / 2.0;
    assert Twice(h) == t;
    SinCos(m, h);
  }

  /** Degrees to radians, written as the scenes write it: `(deg * Math.PI) / 180`. */
  function Radians(m: MathLib, deg: real): real {
    (deg * m.pi) / 180.0
  }

  /** `Vector3.length`. */
  function Length(m: MathLib, v: Vec3): real {
    m.sqrt(LengthSq(v))
  }

  /** `Vector3.normalize`: divides by the length, or by 1 when the length is 0,
      so the zero vector is left as it is. */
  function Normalize(m: MathLib, v: Vec3): (r: Vec3)
    requires Lawful(m)
    ensures LengthSq(v) > 0.0 ==> LengthSq(r) == 1.0
    ensures LengthSq(r) == 1.0 || LengthSq(r) == 0.0
    ensures LengthSq(v) == 0.0 ==> r == v
    ensures v == Zero ==> r == Zero
  {
    var len := Length(m, v);
    if len == 0.0 then
      NoLengthNoSquare(m, v);
      v
    else
      UnitByDivision(m, v);
      Scale(1.0 / len, v)
  }

  lemma NoLengthNoSquare(m: MathLib, v: Vec3)
    requires Lawful(m)
    requires Length(m, v) == 0.0
    ensures LengthSq(v) == 0.0
  {
    LengthSqNonNegative(v);
    Sqrt(m, LengthSq(v));
  }

  lemma UnitByDivision(m: MathLib, v: Vec3)
    requires Lawful(m)
    requires Length(m, v) != 0.0
    ensures LengthSq(Scale(1.0 / Length(m, v), v)) == 1.0
  {
    var L := LengthSq(v);
    LengthSqNonNegative(v);
    var len := m.sqrt(L);
    Sqrt(m, L);
    var k := 1.0 / len;
    assert k * len == 1.0;
    LengthSqScale(k, v);
    calc {
      LengthSq(Scale(k, v));
      k * k * L;
      k * k * (len * len);
      (k * len) * (k * len);
      1.0;
    }
  }

  /** A vector of positive length is normalised by a positive factor. */
  lemma NormalizeScales(m: MathLib, v: Vec3)
    requires Lawful(m)
    requires LengthSq(v) > 0.0
    ensures 0.0 < 1.0 / Length(m, v)
    ensures Normalize(m, v) == Scale(1.0 / Length(m, v), v)
  {
    Sqrt(m, LengthSq(v));
  }

  /** Normalising a positive multiple of a unit vector gives the unit vector back. */
  lemma NormalizeUnitMultiple(m: MathLib, u: Vec3, k: real)
    requires Lawful(m)
    requires LengthSq(u) == 1.0 && k > 0.0
    ensures Normalize(m, Scale(k, u)) == u
  {
    LengthSqScaleUnit(k, u);
    MulPositive(k, k);
    var s := m.sqrt(k * k);
    Sqrt(m, k * k);
    SquareRootUnique(s, k);
    assert Length(m, Scale(k, u)) == k;
    ScaleInverse(k, u);
  }

  /** Normalising a positive multiple of a vector gives what normalising the
      vector gives. */
  lemma NormalizeMultiple(m: MathLib, v: Vec3, k: real)
    requires Lawful(m)
    requires LengthSq(v) > 0.0 && k > 0.0
    ensures Normalize(m, Scale(k, v)) == Normalize(m, v)
  {
    var len := Length(m, v);
    Sqrt(m, LengthSq(v));
    NormalizeScales(m, v);
    var u := Normalize(m, v);
    assert LengthSq(u) == 1.0;
    ScaleScale(len, 1.0 / len, v);
    assert len * (1.0 / len) == 1.0;
    ScaleByOne(len * (1.0 / len), v);
    assert Scale(len, u) == v;
    ScaleScale(k, len, u);
    assert Scale(k, v) == Scale(k * len, u);
    MulPositive(k, len);
    NormalizeUnitMultiple(m, u, k * len);
  }

  lemma SquareRootUnique(s: real, k: real)
    requires 0.0 < s && 0.0 < k && s * s == k * k
    ensures s == k
  {
    if s < k {
      MulLeftStrict(s, s, k);
      MulRightStrict(k, s, k);
    } else if s > k {
      MulLeftStrict(k, k, s);
      MulRightStrict(s, k, s);
    }
  }

  /** Clamps `v` into `[lo, hi]`, as three.js's `MathUtils.clamp`. */
  function Clamp(v: real, lo: real, hi: real): real {
    if v < lo then lo else if v > hi then hi else v
  }

  /** `Vector3.angleTo`: acos of the clamped cosine, or pi/2 when either vector
      is zero. */
  function AngleTo(m: MathLib, a: Vec3, b: Vec3): real {
    var denominator := m.sqrt(LengthSq(a) * LengthSq(b));
    if denominator == 0.0 then m.pi / 2.0
    else m.acos(Clamp(Dot(a, b) / denominator, -1.0, 1.0))
  }

  /** Between unit vectors `angleTo` is plain `acos` of the dot product: the
      clamp never bites, because |a.b| <= 1. */
  lemma AngleToUnit(m: MathLib, a: Vec3, b: Vec3)
    requires Lawful(m)
    requires LengthSq(a) == 1.0 && LengthSq(b) == 1.0
    ensures -1.0 <= Dot(a, b) <= 1.0
    ensures AngleTo(m, a, b) == m.acos(Dot(a, b))
  {
    DotBound(a, b);
    assert LengthSq(a) * LengthSq(b) == 1.0;
  }
}

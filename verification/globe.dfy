/** The earth's surface in the orbit scene: city markers placed from latitude
    and longitude, and the great-circle arcs drawn from Japan to each city
    (src/plugins/orbitTheEarth.tsx). */
module Globe {
  import opened Vectors
  import opened Maths
  import opened Quaternions
  import opened Pursuit

  /** Radius of the earth sphere. */
  const Radius: real := 0.5

  /** Number of segments `createLine` cuts every arc into. */
  const LineSegments: nat := 15

  /** `getCityPoint(lat, lng)`: elevation phi = lat in radians, azimuth
      theta = (lng - 180) in radians, and the point
      (-r cos phi cos theta, r sin phi, r cos phi sin theta). Every city lies on
      the sphere of radius `Radius`, and latitude +90 / -90 are the poles. */
  function CityPoint(m: MathLib, lat: real, lng: real): (p: Vec3)
    requires Lawful(m)
    ensures LengthSq(p) == Radius * Radius
    ensures lat == 90.0 ==> p == Vec3(0.0, Radius, 0.0)
    ensures lat == -90.0 ==> p == Vec3(0.0, -Radius, 0.0)
  {
    var phi := Radians(m, lat);
    var theta := Radians(m, lng - 180.0);
    var cp, sp, ct, st := m.cos(phi), m.sin(phi), m.cos(theta), m.sin(theta);
    SinCos(m, phi);
    SinCos(m, theta);
    SphereIdentity(cp, sp, ct, st);
    PoleFactors(m, lat, ct, st);
    Vec3(-1.0 * Radius * cp * ct, Radius * sp, Radius * cp * st)
  }

  lemma SphereIdentity(cp: real, sp: real, ct: real, st: real)
    requires sp * sp + cp * cp == 1.0 && st * st + ct * ct == 1.0
    ensures LengthSq(Vec3(-1.0 * Radius * cp * ct, Radius * sp, Radius * cp * st)) == Radius * Radius
  {
    var x, y, z := -1.0 * Radius * cp * ct, Radius * sp, Radius * cp * st;
    assert x * x == 0.25 * ((cp * cp) * (ct * ct));
    assert y * y == 0.25 * (sp * sp);
    assert z * z == 0.25 * ((cp * cp) * (st * st));
    assert (cp * cp) * (ct * ct) + (cp * cp) * (st * st) == (cp * cp) * (st * st + ct * ct);
    MulOne(cp * cp, st * st + ct * ct);
  }

  /** At latitude +90 or -90, cos phi = 0 and the x and z coordinates
      vanish. */
  lemma PoleFactors(m: MathLib, lat: real, ct: real, st: real)
    requires Lawful(m)
    ensures var cp := m.cos(Radians(m, lat));
      lat == 90.0 || lat == -90.0 ==> -1.0 * Radius * cp * ct == 0.0 && Radius * cp * st == 0.0
  {
    if lat == 90.0 || lat == -90.0 {
      assert Radians(m, lat) == m.pi / 2.0 || Radians(m, lat) == -m.pi / 2.0;
    }
  }

  /** Vertex `i` of the arc from `s` to `e` cut into `n` segments: `s` rotated
      about the normalised `s x e` by `i / n` of the angle between them. When
      `s x e` is not zero the vertex stays at the distance of `s` from the
      centre, lies in the plane through the centre that holds `s` and `e`,
      and makes the angle `i / n` of the way with `s`, turned toward `e`: its
      dot products with `s` and with axis x `s` (the part of `e` across `s`,
      scaled) are |s|^2 times the cosine and the sine of that angle. When `s x e` is zero (`s`
      and `e` parallel) the axis normalises to zero and every vertex is `s`
      itself. */
  function ArcVertex(m: MathLib, s: Vec3, e: Vec3, n: nat, i: nat): (v: Vec3)
    requires Lawful(m)
    requires i < n
    ensures LengthSq(Cross(s, e)) > 0.0 ==> LengthSq(v) == LengthSq(s)
    ensures LengthSq(Cross(s, e)) > 0.0 ==> Dot(Normalize(m, Cross(s, e)), v) == 0.0
    ensures LengthSq(Cross(s, e)) > 0.0 ==>
      Dot(s, v) == m.cos(ArcAngle(m, s, e, n, i)) * LengthSq(s)
    ensures LengthSq(Cross(s, e)) > 0.0 ==>
      Dot(Cross(Normalize(m, Cross(s, e)), s), v) == m.sin(ArcAngle(m, s, e, n, i)) * LengthSq(s)
    ensures Cross(s, e) == Zero ==> v == s
    ensures i == 0 ==> v == s
  {
    var theta := ArcAngle(m, s, e, n, i);
    ArcRotation(m, s, e, theta);
    Rotate(s, FromAxisAngle(m, Normalize(m, Cross(s, e)), theta))
  }

  /** How far vertex `i` of `n` is turned: `i / n` of the angle from `s` to
      `e`, written as the scene writes it, `(angle / n) * i`. */
  function ArcAngle(m: MathLib, s: Vec3, e: Vec3, n: nat, i: nat): (theta: real)
    requires i < n
    ensures i == 0 ==> theta == 0.0
  {
    (AngleTo(m, s, e) / n as real) * i as real
  }

  /** Rotating `s` about the normalised `s x e` by any angle `theta` keeps its
      length, keeps it in the plane of `s` and `e` and turns it by exactly
      `theta` toward `e`; with no turn, or no axis, it stays where it is. */
  lemma ArcRotation(m: MathLib, s: Vec3, e: Vec3, theta: real)
    requires Lawful(m)
    ensures var axis := Normalize(m, Cross(s, e));
      var v := Rotate(s, FromAxisAngle(m, axis, theta));
      && (LengthSq(Cross(s, e)) > 0.0 ==>
            && LengthSq(v) == LengthSq(s) && Dot(axis, v) == 0.0
            && Dot(s, v) == m.cos(theta) * LengthSq(s)
            && Dot(Cross(axis, s), v) == m.sin(theta) * LengthSq(s))
      && (Cross(s, e) == Zero ==> v == s)
      && (theta == 0.0 ==> v == s)
  {
    if LengthSq(Cross(s, e)) > 0.0 {
      var q := FromAxisAngle(m, Normalize(m, Cross(s, e)), theta);
      ArcAxis(m, s, e);
      assert NormSq(q) == 1.0;
      ArcTurn(m, s, e, theta);
    }
  }

  lemma ArcTurn(m: MathLib, s: Vec3, e: Vec3, theta: real)
    requires Lawful(m)
    requires LengthSq(Cross(s, e)) > 0.0
    ensures var axis := Normalize(m, Cross(s, e));
      var v := Rotate(s, FromAxisAngle(m, axis, theta));
      && Dot(axis, v) == 0.0 && Dot(s, v) == m.cos(theta) * LengthSq(s)
      && Dot(Cross(axis, s), v) == m.sin(theta) * LengthSq(s)
  {
    var axis := Normalize(m, Cross(s, e));
    var sn, cs := m.sin(theta / 2.0), m.cos(theta / 2.0);
    ArcAxis(m, s, e);
    AxisAngleComponents(m, axis, theta);
    HalfAngle(m, theta);
    TurnDots(s, axis, FromAxisAngle(m, axis, theta), sn, cs, m.cos(theta), m.sin(theta));
  }

  /** Rotating `s` by the quaternion of a unit axis perpendicular to it, with
      half-angle sine and cosine `sn` and `cs`, keeps it perpendicular to the
      axis and turns it by the angle whose cosine is `c`. */
  lemma TurnDots(s: Vec3, axis: Vec3, q: Quat, sn: real, cs: real, c: real, d: real)
    requires LengthSq(axis) == 1.0 && Dot(axis, s) == 0.0
    requires q == AxisQuat(axis, sn, cs) && c == 1.0 - 2.0 * sn * sn && d == 2.0 * sn * cs
    ensures Dot(axis, Rotate(s, q)) == 0.0 && Dot(s, Rotate(s, q)) == c * LengthSq(s)
    ensures Dot(Cross(axis, s), Rotate(s, q)) == d * LengthSq(s)
  {
    RotateHalves(s, axis, sn, cs);
    RodriguesDots(s, axis, 1.0 - 2.0 * sn * sn, 2.0 * sn * cs, c);
    RodriguesSide(s, axis, 1.0 - 2.0 * sn * sn, 2.0 * sn * cs, d);
  }

  /** The axis of the arc is a unit vector perpendicular to its start. */
  lemma ArcAxis(m: MathLib, s: Vec3, e: Vec3)
    requires Lawful(m)
    requires LengthSq(Cross(s, e)) > 0.0
    ensures var axis := Normalize(m, Cross(s, e));
      LengthSq(axis) == 1.0 && Dot(axis, s) == 0.0
  {
    var x := Cross(s, e);
    NormalizeScales(m, x);
    CrossOrthogonal(s, e);
    DotScaleLeft(1.0 / Length(m, x), x, s);
    DotSymmetric(x, s);
  }

  /** For `u` perpendicular to `s`, a v = a s + b (u x s) is perpendicular to
      `u` and has v.s = a |s|^2, where `c` is another name for `a`. */
  lemma RodriguesDots(s: Vec3, u: Vec3, a: real, b: real, c: real)
    requires Dot(u, s) == 0.0 && a == c
    ensures var v := Add(Scale(a, s), Scale(b, Cross(u, s)));
      Dot(u, v) == 0.0 && Dot(s, v) == c * LengthSq(s)
  {
    var w := Cross(u, s);
    CrossOrthogonal(u, s);
    DotAddRight(u, Scale(a, s), Scale(b, w));
    DotScaleRight(a, u, s);
    DotScaleRight(b, u, w);
    DotAddRight(s, Scale(a, s), Scale(b, w));
    DotScaleRight(a, s, s);
    DotScaleRight(b, s, w);
  }

  /** For a unit `u` perpendicular to `s`, the same v = a s + b (u x s) has
      (u x s).v = b |s|^2, where `d` is another name for `b`: the sign of `b`
      tells on which side of `s` the vector turns. */
  lemma RodriguesSide(s: Vec3, u: Vec3, a: real, b: real, d: real)
    requires LengthSq(u) == 1.0 && Dot(u, s) == 0.0 && b == d
    ensures var v := Add(Scale(a, s), Scale(b, Cross(u, s)));
      Dot(Cross(u, s), v) == d * LengthSq(s)
  {
    var w := Cross(u, s);
    CrossOrthogonal(u, s);
    DotSymmetric(s, w);
    Lagrange(u, s);
    MulOne(LengthSq(s), LengthSq(u));
    assert LengthSq(w) == LengthSq(s);
    DotAddRight(w, Scale(a, s), Scale(b, w));
    DotScaleRight(a, w, s);
    DotScaleRight(b, w, w);
  }

  /** The whole turn completes the arc: for points `s` and `e` on the globe's
      surface that are not parallel, rotating `s` about the normalised `s x e`
      by the full angle between them lands exactly on `e`. So the arc's last
      vertex, at (n - 1) / n of the way, is followed by the end point the
      line appends, and the drawn arc runs on to it. */
  lemma ArcReachesEnd(m: MathLib, s: Vec3, e: Vec3)
    requires Lawful(m)
    requires LengthSq(s) == Radius * Radius && LengthSq(e) == Radius * Radius
    requires LengthSq(Cross(s, e)) > 0.0
    ensures Rotate(s, FromAxisAngle(m, Normalize(m, Cross(s, e)), AngleTo(m, s, e))) == e
  {
    var p, n := Scale(2.0, s), Scale(2.0, e);
    var q := FromAxisAngle(m, Normalize(m, Cross(s, e)), AngleTo(m, s, e));
    DoubledUnit(s);
    DoubledUnit(e);
    DoubledCross(s, e);
    DoubledAngle(m, s, e);
    NormalizeMultiple(m, Cross(s, e), 4.0);
    LengthSqScale(4.0, Cross(s, e));
    TurnOnto(m, AngleBetween, p, n);
    assert Turn(m, AngleBetween, p, n) == q;
    RotateScale(s, q, 2.0);
  }

  /** Doubling a point of the globe, whose radius is 1/2, gives a unit
      vector. */
  lemma DoubledUnit(v: Vec3)
    requires LengthSq(v) == Radius * Radius
    ensures LengthSq(Scale(2.0, v)) == 1.0
  {
    LengthSqScale(2.0, v);
  }

  lemma DoubledCross(s: Vec3, e: Vec3)
    ensures Cross(Scale(2.0, s), Scale(2.0, e)) == Scale(4.0, Cross(s, e))
  {
    CrossScaleLeft(2.0, s, Scale(2.0, e));
    CrossScaleRight(2.0, s, e);
    ScaleScale(2.0, 2.0, Cross(s, e));
  }

  /** Doubling two points of the globe does not change the angle between
      them. */
  lemma DoubledAngle(m: MathLib, s: Vec3, e: Vec3)
    requires Lawful(m)
    requires LengthSq(s) == Radius * Radius && LengthSq(e) == Radius * Radius
    ensures AngleTo(m, Scale(2.0, s), Scale(2.0, e)) == AngleTo(m, s, e)
  {
    var p, n := Scale(2.0, s), Scale(2.0, e);
    DoubledUnit(s);
    DoubledUnit(e);
    AngleToUnit(m, p, n);
    DotScaleLeft(2.0, s, n);
    DotScaleRight(2.0, s, e);
    var den := m.sqrt(LengthSq(s) * LengthSq(e));
    assert LengthSq(s) * LengthSq(e) == 0.0625;
    Sqrt(m, 0.0625);
    SquareRootUnique(den, 0.25);
  }

  /** `createOrbitPoints(start, end, n)`: the `n` arc vertices followed by the
      end point itself. */
  method OrbitPoints(m: MathLib, s: Vec3, e: Vec3, n: nat) returns (vertices: seq<Vec3>)
    requires Lawful(m)
    ensures |vertices| == n + 1
    ensures forall i :: 0 <= i < n ==> vertices[i] == ArcVertex(m, s, e, n, i)
    ensures vertices[n] == e
    ensures 0 < n ==> vertices[0] == s
    ensures LengthSq(Cross(s, e)) > 0.0 ==>
      forall i :: 0 <= i < n ==> LengthSq(vertices[i]) == LengthSq(s)
    ensures Cross(s, e) == Zero ==> forall i :: 0 <= i < n ==> vertices[i] == s
  {
    vertices := [];
    var i := 0;
    while i < n
      invariant 0 <= i <= n
      invariant |vertices| == i
      invariant forall k :: 0 <= k < i ==> vertices[k] == ArcVertex(m, s, e, n, k)
    {
      vertices := vertices + [ArcVertex(m, s, e, n, i)];
      i := i + 1;
    }
    vertices := vertices + [e];
  }

  /** `createLine(start, end)`: the points of a 15-segment arc, 16 in all,
      from `start` to `end`. */
  method LinePoints(m: MathLib, s: Vec3, e: Vec3) returns (points: seq<Vec3>)
    requires Lawful(m)
    ensures |points| == LineSegments + 1
    ensures points[0] == s && points[LineSegments] == e
    ensures forall i :: 0 <= i < LineSegments ==> points[i] == ArcVertex(m, s, e, LineSegments, i)
    ensures LengthSq(Cross(s, e)) > 0.0 ==>
      forall i :: 0 <= i < LineSegments ==> LengthSq(points[i]) == LengthSq(s)
    ensures Cross(s, e) == Zero ==> forall i :: 0 <= i < LineSegments ==> points[i] == s
  {
    points := OrbitPoints(m, s, e, LineSegments);
  }

  /** The cities the scene marks, as [latitude, longitude], with the labels
      the scene gives them: the United Kingdom, Beijing, Los Angeles, Sydney,
      Sao Paulo, Singapore and the two poles. The Beijing and Los Angeles
      pairs carry longitudes of the opposite sign to those cities'; they are
      kept as written. */
  const Cities: seq<(real, real)> := [
    (51.2838, 0.0), (39.0, -116.0), (34.0, 118.0), (-33.0, 151.0),
    (-23.0, -46.0), (1.0, 103.0), (90.0, 0.0), (-90.0, 0.0)]

  /** The origin of every arc, in Japan. */
  const JapanLat: real := 37.4900318
  const JapanLng: real := 136.4664008

  /** Every point of `line` is on the earth's surface. */
  ghost predicate OnSurface(line: seq<Vec3>) {
    forall i :: 0 <= i < |line| ==> LengthSq(line[i]) == Radius * Radius
  }

  /** A line of `createLine` from `a` to `b`. */
  predicate Joins(line: seq<Vec3>, a: Vec3, b: Vec3) {
    |line| == LineSegments + 1 && line[0] == a && line[LineSegments] == b
  }

  /** The line between two points of the surface follows the surface, both
      when the two are not parallel and when their cross product is zero (then
      every arc vertex is the start). */
  method SurfaceLine(m: MathLib, a: Vec3, b: Vec3) returns (line: seq<Vec3>)
    requires Lawful(m)
    requires LengthSq(a) == Radius * Radius && LengthSq(b) == Radius * Radius
    ensures Joins(line, a, b)
    ensures LengthSq(Cross(a, b)) > 0.0 ==> OnSurface(line)
    ensures Cross(a, b) == Zero ==> OnSurface(line)
  {
    line := LinePoints(m, a, b);
  }

  /** The earth's markings: one marker per city, and one line from the Japan
      marker to each. Every marker is on the sphere, the last two at the
      poles, and every line starts at Japan and ends at its city; a line whose
      ends are not parallel, or whose ends have a zero cross product, stays on
      the sphere throughout. */
  method MarkCities(m: MathLib) returns (japan: Vec3, markers: seq<Vec3>, lines: seq<seq<Vec3>>)
    requires Lawful(m)
    ensures japan == CityPoint(m, JapanLat, JapanLng)
    ensures |markers| == |Cities| && |lines| == |Cities|
    ensures forall k :: 0 <= k < |Cities| ==> markers[k] == CityPoint(m, Cities[k].0, Cities[k].1)
    ensures forall k :: 0 <= k < |Cities| ==> LengthSq(markers[k]) == Radius * Radius
    ensures markers[6] == Vec3(0.0, Radius, 0.0) && markers[7] == Vec3(0.0, -Radius, 0.0)
    ensures forall k :: 0 <= k < |Cities| ==> Joins(lines[k], japan, markers[k])
    ensures forall k :: 0 <= k < |Cities| ==>
      (LengthSq(Cross(japan, markers[k])) > 0.0 || Cross(japan, markers[k]) == Zero) ==> OnSurface(lines[k])
  {
    japan := CityPoint(m, JapanLat, JapanLng);
    markers, lines := [], [];
    var k := 0;
    while k < |Cities|
      invariant 0 <= k <= |Cities|
      invariant |markers| == k && |lines| == k
      invariant forall j :: 0 <= j < k ==> markers[j] == CityPoint(m, Cities[j].0, Cities[j].1)
      invariant forall j :: 0 <= j < k ==> Joins(lines[j], japan, markers[j])
      invariant forall j :: 0 <= j < k ==>
        (LengthSq(Cross(japan, markers[j])) > 0.0 || Cross(japan, markers[j]) == Zero) ==> OnSurface(lines[j])
    {
      var city := CityPoint(m, Cities[k].0, Cities[k].1);
      var line := SurfaceLine(m, japan, city);
      markers, lines := markers + [city], lines + [line];
      k := k + 1;
    }
    assert Cities[6].0 == 90.0 && Cities[7].0 == -90.0;
  }
}

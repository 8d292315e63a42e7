/** The orbit scene's state and its per-frame update
    (src/plugins/orbitTheEarth.tsx, `init` and `render`). The moon, the plane's
    circle and the artificial satellite follow sin and cos of 0.2 times the
    elapsed time; two satellites chase the moon and the plane steers toward a
    point a quarter turn ahead of it on its circle. */
module OrbitScene {
  import opened Vectors
  import opened Maths
  import opened Quaternions
  import opened Pursuit

  const MoonDistance: real := 3.0
  const SatelliteSpeed: real := 0.0095
  /** The second satellite flies at 0.7 times the first one's speed. */
  const Satellite2Speed: real := SatelliteSpeed * 0.7
  const PlaneDistance: real := 0.55
  const PlaneSpeed: real := 0.008
  const ArtificialSatelliteDistance: real := 0.8
  /** The earth group's tilt about z, in degrees (negated when applied). */
  const EarthTiltDegrees: real := 23.4

  /** The y rotations the frame advances by a fixed amount: the moon, the
      clouds, the star field, the earth group and the last city marker. */
  datatype Spins = Spins(moon: real, clouds: real, stars: real, earth: real, city: real)

  /** What changes from frame to frame. `earthTilt` is the earth group's
      rotation about z. */
  datatype Scene = Scene(
    moon: Vec3,
    satellite: Flyer,
    satellite2: Flyer,
    plane: Flyer,
    artificialSatellite: Vec3,
    spins: Spins,
    earthTilt: real)

  const NoSpin: Spins := Spins(0.0, 0.0, 0.0, 0.0, 0.0)

  /** The per-frame spin increments. */
  function Spin(s: Spins): Spins {
    Spins(s.moon + 0.01, s.clouds + 0.003, s.stars + 0.002, s.earth + 0.002, s.city + 0.002)
  }

  /** `Spin` applied `n` times. */
  function SpinTimes(s: Spins, n: nat): Spins {
    if n == 0 then s else Spin(SpinTimes(s, n - 1))
  }

  /** After `n` frames each spin has grown by `n` times its increment. */
  lemma {:induction false} SpinsAfter(s: Spins, n: nat)
    ensures SpinTimes(s, n) == Spins(
      s.moon + 0.01 * n as real, s.clouds + 0.003 * n as real, s.stars + 0.002 * n as real,
      s.earth + 0.002 * n as real, s.city + 0.002 * n as real)
  {
    if n > 0 {
      SpinsAfter(s, n - 1);
    }
  }

  /** The three flyers all keep a unit heading and a unit orientation. */
  predicate SceneSteady(sc: Scene) {
    Steady(sc.satellite) && Steady(sc.satellite2) && Steady(sc.plane)
  }

  /** The scene `init` builds: the moon at distance 3 on +x, both satellites
      at height 3 and the plane at height 0.55 all heading up (the normalised
      (0, 1, 0)), the artificial satellite at distance 0.8 on +z, and the
      earth tilted by 23.4 degrees. */
  function Initial(m: MathLib): (sc: Scene)
    requires Lawful(m)
    ensures SceneSteady(sc)
    ensures Upright(sc.satellite) && Upright(sc.satellite2) && Upright(sc.plane)
  {
    var satellite := Launch(m, Vec3(0.0, MoonDistance, 0.0));
    var satellite2 := Launch(m, Vec3(0.0, MoonDistance, 0.0));
    var plane := Launch(m, Vec3(0.0, PlaneDistance, 0.0));
    UprightSteady(satellite);
    UprightSteady(satellite2);
    UprightSteady(plane);
    Scene(
      Vec3(MoonDistance, 0.0, 0.0),
      satellite,
      satellite2,
      plane,
      Vec3(0.0, 0.0, ArtificialSatelliteDistance),
      NoSpin,
      EarthTilt(m))
  }

  /** The earth group's rotation about z, in radians. */
  function EarthTilt(m: MathLib): real {
    -(EarthTiltDegrees * m.pi) / 180.0
  }

  /** Heading straight up with the identity orientation. */
  predicate Upright(f: Flyer) {
    f.heading == Vec3(0.0, 1.0, 0.0) && f.orientation == Identity
  }

  /** A flyer as `init` sets it up at `position`: heading along the
      normalised (0, 1, 0), with the identity orientation. */
  function Launch(m: MathLib, position: Vec3): (f: Flyer)
    requires Lawful(m)
    ensures Upright(f) && f.position == position
  {
    UpIsUnit(m);
    Flyer(position, Normalize(m, Vec3(0.0, 1.0, 0.0)), Identity)
  }

  /** Every upright flyer is steady. */
  lemma UprightSteady(f: Flyer)
    requires Upright(f)
    ensures Steady(f)
  {
    IdentityUnit();
    assert LengthSq(Vec3(0.0, 1.0, 0.0)) == 1.0;
  }

  lemma UpIsUnit(m: MathLib)
    requires Lawful(m)
    ensures Normalize(m, Vec3(0.0, 1.0, 0.0)) == Vec3(0.0, 1.0, 0.0)
    ensures LengthSq(Vec3(0.0, 1.0, 0.0)) == 1.0
  {
    NormalizeUnitMultiple(m, Vec3(0.0, 1.0, 0.0), 1.0);
    assert Scale(1.0, Vec3(0.0, 1.0, 0.0)) == Vec3(0.0, 1.0, 0.0);
  }

  /** `p` lies on the circle of radius `r` about the y axis in the plane y = 0. */
  predicate OnCircle(p: Vec3, r: real) {
    p.y == 0.0 && p.x * p.x + p.z * p.z == r * r
  }

  lemma CircleIdentity(c: real, s: real, r: real)
    requires s * s + c * c == 1.0
    ensures (c * r) * (c * r) + (s * r) * (s * r) == r * r
  {
    assert (c * r) * (c * r) + (s * r) * (s * r) == (s * s + c * c) * (r * r);
    MulOne(r * r, s * s + c * c);
  }

  /** The moon's place at elapsed time `time`: on the circle of radius 3 at
      angle 0.2 t. */
  function MoonAt(m: MathLib, time: real): (p: Vec3)
    requires Lawful(m)
    ensures OnCircle(p, MoonDistance)
  {
    var a := time * 0.2;
    SinCos(m, a);
    CircleIdentity(m.cos(a), m.sin(a), MoonDistance);
    Vec3(m.cos(a) * MoonDistance, 0.0, m.sin(a) * MoonDistance)
  }

  /** Where the plane is put at the start of the frame: on the circle of
      radius 0.55 at angle 0.2 t. */
  function PlaneRing(m: MathLib, time: real): (p: Vec3)
    requires Lawful(m)
    ensures OnCircle(p, PlaneDistance)
  {
    var a := time * 0.2;
    SinCos(m, a);
    CircleIdentity(m.cos(a), m.sin(a), PlaneDistance);
    Vec3(m.cos(a) * PlaneDistance, 0.0, m.sin(a) * PlaneDistance)
  }

  /** The point the plane steers toward: `endLand - startFly` with `startFly`
      the origin and `endLand` = (-0.55 sin, 0, 0.55 cos), a quarter turn
      ahead of the ring point on the same circle. */
  function PlaneTarget(m: MathLib, time: real): (p: Vec3)
    requires Lawful(m)
    ensures OnCircle(p, PlaneDistance)
    ensures Dot(p, PlaneRing(m, time)) == 0.0
  {
    var a := time * 0.2;
    var sn, cs := m.sin(a), m.cos(a);
    var startFly := Zero;
    var endLand := Vec3(sn * -1.0 * PlaneDistance, 0.0, cs * PlaneDistance);
    SinCos(m, a);
    CircleIdentity(sn, cs, PlaneDistance);
    assert (sn * -1.0 * PlaneDistance) * (sn * -1.0 * PlaneDistance) == (sn * PlaneDistance) * (sn * PlaneDistance);
    Sub(endLand, startFly)
  }

  /** The artificial satellite's place: x and y both 0.8 cos(0.2 t), z
      0.8 sin(0.2 t), so its shadow on y = 0 is on the circle of radius 0.8. */
  function ArtificialSatelliteAt(m: MathLib, time: real): (p: Vec3)
    requires Lawful(m)
    ensures p.x == p.y
    ensures OnCircle(p.(y := 0.0), ArtificialSatelliteDistance)
  {
    var a := time * 0.2;
    SinCos(m, a);
    CircleIdentity(m.cos(a), m.sin(a), ArtificialSatelliteDistance);
    Vec3(
      m.cos(a) * ArtificialSatelliteDistance,
      m.cos(a) * ArtificialSatelliteDistance,
      m.sin(a) * ArtificialSatelliteDistance)
  }

  /** One `render` frame at elapsed time `time`: the spins advance; the moon,
      the plane and the artificial satellite are placed from the time; each
      satellite then steers toward the moon's new position; the plane is put
      back on its ring point and steers toward `PlaneTarget`. Steady flyers
      stay steady, each satellite moves exactly its speed and the plane ends
      exactly `PlaneSpeed` from its ring point. */
  function Frame(m: MathLib, sc: Scene, time: real): (r: Scene)
    requires Lawful(m)
    ensures r.spins == Spin(sc.spins) && r.earthTilt == sc.earthTilt
    ensures r.moon == MoonAt(m, time) && r.artificialSatellite == ArtificialSatelliteAt(m, time)
    ensures r.satellite.heading == Steer(m, sc.satellite.heading, Sub(r.moon, sc.satellite.position))
    ensures r.satellite2.heading == Steer(m, sc.satellite2.heading, Sub(r.moon, sc.satellite2.position))
    ensures SceneSteady(sc) ==> SceneSteady(r)
    ensures SceneSteady(sc) ==>
      && LengthSq(Sub(r.satellite.position, sc.satellite.position)) == SatelliteSpeed * SatelliteSpeed
      && LengthSq(Sub(r.satellite2.position, sc.satellite2.position)) == Satellite2Speed * Satellite2Speed
      && LengthSq(Sub(r.plane.position, PlaneRing(m, time))) == PlaneSpeed * PlaneSpeed
  {
    var moon := MoonAt(m, time);
    var placed := sc.plane.(position := PlaneRing(m, time));
    assert Steady(placed) == Steady(sc.plane);
    Scene(
      moon,
      Fly(m, AcosOfDot, sc.satellite, Sub(moon, sc.satellite.position), SatelliteSpeed),
      Fly(m, AcosOfDot, sc.satellite2, Sub(moon, sc.satellite2.position), SatelliteSpeed * 0.7),
      Fly(m, AngleBetween, placed, PlaneTarget(m, time), PlaneSpeed),
      ArtificialSatelliteAt(m, time),
      Spin(sc.spins),
      sc.earthTilt)
  }

  /** The plane's position does not accumulate: after a frame it depends only
      on the time and on the plane's heading and orientation, never on where
      the plane was. */
  lemma PlaneForgetsPosition(m: MathLib, sc1: Scene, sc2: Scene, time: real)
    requires Lawful(m)
    requires sc1.plane.heading == sc2.plane.heading && sc1.plane.orientation == sc2.plane.orientation
    ensures Frame(m, sc1, time).plane == Frame(m, sc2, time).plane
  {
  }

  /** The frames at the successive elapsed times `times`, from `sc`. */
  function Run(m: MathLib, sc: Scene, times: seq<real>): Scene
    requires Lawful(m)
  {
    if |times| == 0 then sc else Frame(m, Run(m, sc, times[..|times| - 1]), times[|times| - 1])
  }

  /** From the initial scene, however many frames pass and whatever the
      clock reads, every flyer keeps a unit heading and a unit orientation,
      so every frame moves each satellite exactly its speed. */
  lemma RunSteady(m: MathLib, times: seq<real>)
    requires Lawful(m)
    ensures SceneSteady(Run(m, Initial(m), times))
  {
    RunKeepsSteady(m, Initial(m), times);
  }

  /** Frames keep a steady scene steady, however many of them pass. */
  lemma {:induction false} RunKeepsSteady(m: MathLib, sc: Scene, times: seq<real>)
    requires Lawful(m) && SceneSteady(sc)
    ensures SceneSteady(Run(m, sc, times))
  {
    if |times| > 0 {
      var before := times[..|times| - 1];
      RunKeepsSteady(m, sc, before);
      var prev := Run(m, sc, before);
      assert Run(m, sc, times) == Frame(m, prev, times[|times| - 1]);
      FrameSteady(m, prev, times[|times| - 1]);
    }
  }

  lemma FrameSteady(m: MathLib, sc: Scene, time: real)
    requires Lawful(m) && SceneSteady(sc)
    ensures SceneSteady(Frame(m, sc, time))
  {
  }

  lemma FrameSpins(m: MathLib, sc: Scene, time: real)
    requires Lawful(m)
    ensures Frame(m, sc, time).spins == Spin(sc.spins)
  {
  }

  /** After any run of frames each spin has grown by one increment per
      frame. */
  lemma {:induction false} RunSpins(m: MathLib, sc: Scene, times: seq<real>)
    requires Lawful(m)
    ensures Run(m, sc, times).spins == SpinTimes(sc.spins, |times|)
  {
    if |times| > 0 {
      var before := times[..|times| - 1];
      RunSpins(m, sc, before);
      var prev := Run(m, sc, before);
      assert Run(m, sc, times) == Frame(m, prev, times[|times| - 1]);
      FrameSpins(m, prev, times[|times| - 1]);
    }
  }
}

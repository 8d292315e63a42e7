/** The steering rule the orbit scene applies every frame to the two
    satellites and to the plane (src/plugins/orbitTheEarth.tsx, `render`):
    blend a small step toward a target into the unit heading, re-normalise,
    advance by the speed, and turn the body's orientation by the rotation that
    carries the old heading onto the new one. */
module Pursuit {
  import opened Vectors
  import opened Maths
  import opened Quaternions

  /** A flying body: where it is, the unit direction it flies in and its
      orientation. */
  datatype Flyer = Flyer(position: Vec3, heading: Vec3, orientation: Quat)

  /** How much of the unit direction toward the target is blended into the
      heading each frame; the satellites and the plane use the same 0.05. */
  const TurnScale: real := 0.05

  /** The state every flyer keeps: a unit heading and a unit orientation. */
  predicate Steady(f: Flyer) {
    LengthSq(f.heading) == 1.0 && NormSq(f.orientation) == 1.0
  }

  /** The satellites measure the turn with `Math.acos(prev.dot(next))`, the
      plane with `prev.angleTo(next)`. */
  datatype AngleRule = AcosOfDot | AngleBetween

  function TurnAngle(m: MathLib, rule: AngleRule, prev: Vec3, next: Vec3): real {
    match rule
    case AcosOfDot => m.acos(Dot(prev, next))
    case AngleBetween => AngleTo(m, prev, next)
  }

  /** Between unit headings the two ways of measuring the turn agree. */
  lemma AngleRulesAgree(m: MathLib, prev: Vec3, next: Vec3)
    requires Lawful(m)
    requires LengthSq(prev) == 1.0 && LengthSq(next) == 1.0
    ensures TurnAngle(m, AcosOfDot, prev, next) == TurnAngle(m, AngleBetween, prev, next)
  {
    AngleToUnit(m, prev, next);
  }

  /** The new heading: the old one plus `TurnScale` times the unit direction
      toward the target, normalised. From a unit heading it is again a unit
      heading, less than a right angle away from the old one. */
  function Steer(m: MathLib, heading: Vec3, toward: Vec3): (h: Vec3)
    requires Lawful(m)
    ensures LengthSq(heading) == 1.0 ==> LengthSq(h) == 1.0 && Dot(heading, h) > 0.0
  {
    var w := Add(heading, Scale(TurnScale, Normalize(m, toward)));
    SteerForward(m, heading, toward);
    Normalize(m, w)
  }

  lemma SteerForward(m: MathLib, heading: Vec3, toward: Vec3)
    requires Lawful(m)
    ensures
      var w := Add(heading, Scale(TurnScale, Normalize(m, toward)));
      LengthSq(heading) == 1.0 ==> LengthSq(Normalize(m, w)) == 1.0 && Dot(heading, Normalize(m, w)) > 0.0
  {
    if LengthSq(heading) == 1.0 {
      var d := Normalize(m, toward);
      var w := Add(heading, Scale(TurnScale, d));
      BlendForward(heading, d);
      NormalizeScales(m, w);
      var k := 1.0 / Length(m, w);
      DotSymmetric(heading, Scale(k, w));
      DotScaleLeft(k, w, heading);
      DotSymmetric(w, heading);
      MulPositive(k, Dot(heading, w));
    }
  }

  /** Adding a short step to a unit vector keeps it clear of zero and on the
      same side. */
  lemma BlendForward(heading: Vec3, d: Vec3)
    requires LengthSq(heading) == 1.0
    requires LengthSq(d) == 1.0 || LengthSq(d) == 0.0
    ensures
      var w := Add(heading, Scale(TurnScale, d));
      LengthSq(w) > 0.0 && Dot(heading, w) > 0.0
  {
    var s := Scale(TurnScale, d);
    var w := Add(heading, s);
    DotBound(heading, d);
    DotAddRight(heading, heading, s);
    DotSymmetric(heading, s);
    DotScaleLeft(TurnScale, d, heading);
    DotSymmetric(d, heading);
    assert Dot(heading, w) == 1.0 + TurnScale * Dot(heading, d);
    LengthSqAdd(heading, s);
    LengthSqScale(TurnScale, d);
    assert LengthSq(w) == 1.0 + 2.0 * (TurnScale * Dot(heading, d)) + TurnScale * TurnScale * LengthSq(d);
  }

  /** The rotation that turns `prev` onto `next`: the angle between them about
      the normalised `prev x next`. Between unit headings less than a right
      angle apart it is a unit quaternion; when `prev x next` vanishes the
      headings coincide, the angle is 0 and the rotation is the identity. */
  function Turn(m: MathLib, rule: AngleRule, prev: Vec3, next: Vec3): (q: Quat)
    requires Lawful(m)
    ensures LengthSq(prev) == 1.0 && LengthSq(next) == 1.0 && Dot(prev, next) > 0.0 ==>
      NormSq(q) == 1.0 && (LengthSq(Cross(prev, next)) == 0.0 ==> q == Identity)
  {
    TurnUnit(m, rule, prev, next);
    FromAxisAngle(m, Normalize(m, Cross(prev, next)), TurnAngle(m, rule, prev, next))
  }

  lemma TurnUnit(m: MathLib, rule: AngleRule, prev: Vec3, next: Vec3)
    requires Lawful(m)
    ensures
      var q := FromAxisAngle(m, Normalize(m, Cross(prev, next)), TurnAngle(m, rule, prev, next));
      LengthSq(prev) == 1.0 && LengthSq(next) == 1.0 && Dot(prev, next) > 0.0 ==>
        NormSq(q) == 1.0 && (LengthSq(Cross(prev, next)) == 0.0 ==> q == Identity)
  {
    if LengthSq(prev) == 1.0 && LengthSq(next) == 1.0 && Dot(prev, next) > 0.0 {
      var c := Cross(prev, next);
      var d := Dot(prev, next);
      AngleRulesAgree(m, prev, next);
      assert TurnAngle(m, rule, prev, next) == m.acos(d);
      LengthSqNonNegative(c);
      if LengthSq(c) == 0.0 {
        Lagrange(prev, next);
        MulOne(LengthSq(prev), LengthSq(next));
        assert d * d == 1.0 * 1.0;
        SquareRootUnique(d, 1.0);
      }
    }
  }

  /** The turn does what it is for: between unit headings that are not
      parallel it rotates the old heading exactly onto the new one. */
  lemma {:induction false} TurnOnto(m: MathLib, rule: AngleRule, prev: Vec3, next: Vec3)
    requires Lawful(m)
    requires LengthSq(prev) == 1.0 && LengthSq(next) == 1.0
    requires LengthSq(Cross(prev, next)) > 0.0
    ensures Rotate(prev, Turn(m, rule, prev, next)) == next
  {
    TurnHalves(m, rule, prev, next);
    TurnAxis(m, prev, next);
    var angle := TurnAngle(m, rule, prev, next);
    var s, c := m.sin(angle / 2.0), m.cos(angle / 2.0);
    var axis := Normalize(m, Cross(prev, next));
    var len := Length(m, Cross(prev, next));
    RotateOnto(prev, next, axis, s, c, Dot(prev, next), len, 1.0 / len);
  }

  /** The turn between unit headings that are not parallel is the quaternion
      of its axis and the sine and cosine of half its angle, and those satisfy
      1 - 2 s^2 = prev.next and 2 s c = |prev x next|. */
  lemma TurnHalves(m: MathLib, rule: AngleRule, prev: Vec3, next: Vec3)
    requires Lawful(m)
    requires LengthSq(prev) == 1.0 && LengthSq(next) == 1.0
    requires LengthSq(Cross(prev, next)) > 0.0
    ensures var angle := TurnAngle(m, rule, prev, next);
      var s, c := m.sin(angle / 2.0), m.cos(angle / 2.0);
      var axis := Normalize(m, Cross(prev, next));
      && Turn(m, rule, prev, next) == AxisQuat(axis, s, c)
      && HalfTurn(s, c, Dot(prev, next), Length(m, Cross(prev, next)))
  {
    var angle := TurnAngle(m, rule, prev, next);
    AngleRulesAgree(m, prev, next);
    AngleToUnit(m, prev, next);
    TurnHalfAngle(m, prev, next, angle);
    AxisAngleComponents(m, Normalize(m, Cross(prev, next)), angle);
  }

  /** Rotating `prev` about a unit axis perpendicular to it, by the angle
      whose cosine is prev.next and whose sine is |prev x next|, lands on
      `next`. */
  lemma RotateOnto(prev: Vec3, next: Vec3, axis: Vec3, s: real, c: real, d: real, len: real, k: real)
    requires LengthSq(axis) == 1.0 && Dot(axis, prev) == 0.0
    requires Cross(axis, prev) == Scale(k, Sub(next, Scale(d, prev)))
    requires len * k == 1.0 && HalfTurn(s, c, d, len)
    ensures Rotate(prev, AxisQuat(axis, s, c)) == next
  {
    RotatePerpendicular(prev, axis, s, c, d, len);
    UnitRecombined(prev, next, d, len, k);
  }

  /** The axis of the turn between unit headings that are not parallel is a
      unit vector perpendicular to the old heading, and crossing it with the
      old heading gives the part of the new heading across the old one,
      divided by |prev x next|. */
  lemma TurnAxis(m: MathLib, prev: Vec3, next: Vec3)
    requires Lawful(m)
    requires LengthSq(prev) == 1.0 && LengthSq(next) == 1.0
    requires LengthSq(Cross(prev, next)) > 0.0
    ensures var axis := Normalize(m, Cross(prev, next));
      LengthSq(axis) == 1.0 && Dot(axis, prev) == 0.0
      && Cross(axis, prev) == Scale(1.0 / Length(m, Cross(prev, next)), Sub(next, Scale(Dot(prev, next), prev)))
      && Length(m, Cross(prev, next)) * (1.0 / Length(m, Cross(prev, next))) == 1.0
  {
    var x := Cross(prev, next);
    NormalizeScales(m, x);
    var k := 1.0 / Length(m, x);
    CrossOrthogonal(prev, next);
    DotScaleLeft(k, x, prev);
    DotSymmetric(x, prev);
    CrossScaleLeft(k, x, prev);
    CrossCrossLeft(prev, next);
    assert Sub(Scale(LengthSq(prev), next), Scale(Dot(prev, next), prev)) == Sub(next, Scale(Dot(prev, next), prev));
  }

  /** Half the turn angle, for unit headings that are not parallel: with s and
      c its sine and cosine, 1 - 2 s^2 is the cosine of the whole angle, their
      dot product, and 2 s c its sine, the length of their cross product. */
  lemma TurnHalfAngle(m: MathLib, prev: Vec3, next: Vec3, angle: real)
    requires Lawful(m)
    requires LengthSq(prev) == 1.0 && LengthSq(next) == 1.0
    requires LengthSq(Cross(prev, next)) > 0.0
    requires angle == m.acos(Dot(prev, next))
    ensures HalfTurn(m.sin(angle / 2.0), m.cos(angle / 2.0), Dot(prev, next), Length(m, Cross(prev, next)))
  {
    var d := Dot(prev, next);
    AngleToUnit(m, prev, next);
    HalfAngle(m, angle);
    AcosInverse(m, d);
    var L := LengthSq(Cross(prev, next));
    Lagrange(prev, next);
    MulOne(LengthSq(prev), LengthSq(next));
    assert L == 1.0 - d * d;
    var len := m.sqrt(L);
    Sqrt(m, L);
    var sine := m.sin(angle);
    assert sine * sine == len * len;
    assert sine != 0.0;
    SquareRootUnique(sine, len);
  }

  /** One frame of flight: steer toward `toward`, advance `speed` along the new
      heading and premultiply the orientation by the turn. A steady flyer stays
      steady, moves exactly `speed`, and never turns by a right angle or more
      in one frame. */
  function Fly(m: MathLib, rule: AngleRule, f: Flyer, toward: Vec3, speed: real): (r: Flyer)
    requires Lawful(m)
    ensures Steady(f) ==> Steady(r)
    ensures Steady(f) ==> LengthSq(Sub(r.position, f.position)) == speed * speed
    ensures Steady(f) ==> Dot(f.heading, r.heading) > 0.0
    ensures r.position == Add(f.position, Scale(speed, r.heading))
    ensures r.heading == Steer(m, f.heading, toward)
    ensures r.orientation == Multiply(Turn(m, rule, f.heading, r.heading), f.orientation)
  {
    var h := Steer(m, f.heading, toward);
    var q := Turn(m, rule, f.heading, h);
    FlySteady(m, f, h, q, speed);
    Flyer(Add(f.position, Scale(speed, h)), h, Multiply(q, f.orientation))
  }

  /** The turn a frame premultiplies into a steady flyer's orientation is the
      one that carries the old heading onto the new: exactly onto it when the
      two are not parallel, and the identity, leaving the orientation as it
      was, when they are. */
  lemma FlyTurn(m: MathLib, rule: AngleRule, f: Flyer, toward: Vec3, speed: real)
    requires Lawful(m)
    requires Steady(f)
    ensures
      var r := Fly(m, rule, f, toward, speed);
      && (LengthSq(Cross(f.heading, r.heading)) > 0.0 ==>
            Rotate(f.heading, Turn(m, rule, f.heading, r.heading)) == r.heading)
      && (LengthSq(Cross(f.heading, r.heading)) == 0.0 ==> r.orientation == f.orientation)
  {
    var r := Fly(m, rule, f, toward, speed);
    if LengthSq(Cross(f.heading, r.heading)) > 0.0 {
      TurnOnto(m, rule, f.heading, r.heading);
    } else if LengthSq(Cross(f.heading, r.heading)) == 0.0 {
      MultiplyIdentity(f.orientation);
    }
  }

  lemma FlySteady(m: MathLib, f: Flyer, h: Vec3, q: Quat, speed: real)
    requires Steady(f) ==> LengthSq(h) == 1.0 && NormSq(q) == 1.0
    ensures
      var r := Flyer(Add(f.position, Scale(speed, h)), h, Multiply(q, f.orientation));
      Steady(f) ==> Steady(r) && LengthSq(Sub(r.position, f.position)) == speed * speed
  {
    if Steady(f) {
      MulOne(NormSq(q), NormSq(f.orientation));
      LengthSqScaleUnit(speed, h);
      assert Sub(Add(f.position, Scale(speed, h)), f.position) == Scale(speed, h);
    }
  }

  /** A flyer whose target lies on the line of its heading (straight ahead,
      straight behind, or where it sits) does not turn: its heading and
      orientation are unchanged and it advances `speed` along its heading. */
  lemma StraightOn(m: MathLib, rule: AngleRule, f: Flyer, k: real, speed: real)
    requires Lawful(m)
    requires Steady(f)
    ensures Fly(m, rule, f, Scale(k, f.heading), speed)
      == Flyer(Add(f.position, Scale(speed, f.heading)), f.heading, f.orientation)
  {
    SteerAlong(m, f.heading, k);
    NoTurn(m, rule, f.heading);
    MultiplyIdentity(f.orientation);
  }

  /** Steering a unit heading toward a point on its own line leaves it
      unchanged. A target straight behind normalises to the reversed heading,
      and the heading minus a twentieth of itself normalises back to the
      heading. */
  lemma SteerAlong(m: MathLib, h: Vec3, k: real)
    requires Lawful(m)
    requires LengthSq(h) == 1.0
    ensures Steer(m, h, Scale(k, h)) == h
  {
    var d := Normalize(m, Scale(k, h));
    if k == 0.0 {
      assert Scale(k, h) == Zero;
      assert Add(h, Scale(TurnScale, d)) == Scale(1.0, h);
      NormalizeUnitMultiple(m, h, 1.0);
    } else if k > 0.0 {
      SteerAhead(m, h, k);
    } else {
      SteerBack(m, h, k);
    }
  }

  lemma SteerAhead(m: MathLib, h: Vec3, k: real)
    requires Lawful(m)
    requires LengthSq(h) == 1.0 && k > 0.0
    ensures Steer(m, h, Scale(k, h)) == h
  {
    NormalizeUnitMultiple(m, h, k);
    assert Add(h, Scale(TurnScale, h)) == Scale(1.0 + TurnScale, h);
    NormalizeUnitMultiple(m, h, 1.0 + TurnScale);
  }

  lemma SteerBack(m: MathLib, h: Vec3, k: real)
    requires Lawful(m)
    requires LengthSq(h) == 1.0 && k < 0.0
    ensures Steer(m, h, Scale(k, h)) == h
  {
    var back := Scale(-1.0, h);
    LengthSqScaleUnit(-1.0, h);
    ScaleScale(-k, -1.0, h);
    NormalizeUnitMultiple(m, back, -k);
    assert Add(h, Scale(TurnScale, back)) == Scale(1.0 - TurnScale, h);
    NormalizeUnitMultiple(m, h, 1.0 - TurnScale);
  }

  /** Between a unit heading and itself there is nothing to turn. */
  lemma NoTurn(m: MathLib, rule: AngleRule, h: Vec3)
    requires Lawful(m)
    requires LengthSq(h) == 1.0
    ensures Turn(m, rule, h, h) == Identity
  {
    assert Cross(h, h) == Zero;
  }
}

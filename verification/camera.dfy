/** The camera placement that src/plugins/rotateAsGroup.tsx and
    src/plugins/randomBoxGeometries.tsx share: an angle in degrees puts the
    camera on the circle of radius 50 about the y axis, leaving its height
    alone. */
module Camera {
  import opened Vectors
  import opened Maths

  const CameraRadius: real := 50.0

  /** x = 50 sin(angle), z = 50 cos(angle), y unchanged: the camera is on the
      circle of radius 50 and angle 0 puts it on the +z axis. */
  function PlaceCamera(m: MathLib, camera: Vec3, degrees: real): (c: Vec3)
    requires Lawful(m)
    ensures c.y == camera.y
    ensures c.x * c.x + c.z * c.z == CameraRadius * CameraRadius
    ensures degrees == 0.0 ==> c == Vec3(0.0, camera.y, CameraRadius)
  {
    var radian := Radians(m, degrees);
    var s, co := m.sin(radian), m.cos(radian);
    SinCos(m, radian);
    RadiusIdentity(s, co);
    Vec3(CameraRadius * s, camera.y, CameraRadius * co)
  }

  lemma RadiusIdentity(s: real, c: real)
    requires s * s + c * c == 1.0
    ensures (CameraRadius * s) * (CameraRadius * s) + (CameraRadius * c) * (CameraRadius * c)
      == CameraRadius * CameraRadius
  {
    assert (CameraRadius * s) * (CameraRadius * s) + (CameraRadius * c) * (CameraRadius * c)
      == 2500.0 * (s * s + c * c);
  }
}

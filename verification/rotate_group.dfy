/** The group-rotation scene (src/plugins/rotateAsGroup.tsx): while the key is
    held, the parent group swings about y in steps of 0.01 and reverses once
    it passes +-1.35 radians, and the child group spins about z. */
module RotateGroup {
  import opened Vectors
  import opened Maths
  import Camera

  /** Past this rotation the swing reverses. */
  const Threshold: real := 1.35
  /** The parent group's turn per held frame. */
  const Step: real := 0.01
  /** How much the child group's z rotation falls per held frame. */
  const ChildStep: real := 0.1
  /** No swing ever leaves [-Bound, Bound]. */
  const Bound: real := 1.36

  /** `rotation` is the parent group's rotation about y, `reversing` the
      `switch` flag (true: the swing goes negative) and `childSpin` the child
      group's rotation about z. */
  datatype Swing = Swing(rotation: real, reversing: bool, childSpin: real)

  /** The constructor's state: no rotation and `switch` false. */
  const Start: Swing := Swing(0.0, false, 0.0)

  /** The flag update every frame makes before moving: unchanged at exactly 0,
      cleared below -1.35, set above 1.35, otherwise unchanged. The flag comes
      out set exactly when the rotation is above the upper threshold, or the
      flag was already set and the rotation has not gone below the lower one. */
  function NextReversing(rotation: real, reversing: bool): (r: bool)
    ensures r <==> rotation > Threshold || (reversing && rotation >= -Threshold)
  {
    if rotation == 0.0 then reversing
    else if rotation < -Threshold then false
    else if rotation > Threshold then true
    else reversing
  }

  /** One `render` frame. The flag is updated first; then, only while the key
      is held, the parent turns one step against the flag's direction and the
      child spins. Past a threshold a held frame always turns back toward 0. */
  function Tick(s: Swing, held: bool): (r: Swing)
    ensures r.reversing == NextReversing(s.rotation, s.reversing)
    ensures !held ==> r.rotation == s.rotation && r.childSpin == s.childSpin
    ensures held ==> r.childSpin == s.childSpin - ChildStep
    ensures held ==> r.rotation == s.rotation + Step || r.rotation == s.rotation - Step
    ensures held && s.rotation > Threshold ==> r.rotation < s.rotation
    ensures held && s.rotation < -Threshold ==> r.rotation > s.rotation
    ensures -Bound <= s.rotation <= Bound ==> -Bound <= r.rotation <= Bound
  {
    var reversing := NextReversing(s.rotation, s.reversing);
    if !held then s.(reversing := reversing)
    else
      var rotation := if reversing then s.rotation - Step else s.rotation - Step * -1.0;
      Swing(rotation, reversing, s.childSpin - ChildStep)
  }

  /** The state after one frame per entry of `held`, each entry saying
      whether the key was down during that frame. */
  function Run(s: Swing, held: seq<bool>): Swing {
    if |held| == 0 then s else Tick(Run(s, held[..|held| - 1]), held[|held| - 1])
  }

  /** Whatever the key does, a swing that starts within the bound, as the
      constructor's does, never leaves it. */
  lemma {:induction false} SwingBounded(s: Swing, held: seq<bool>)
    requires -Bound <= s.rotation <= Bound
    ensures -Bound <= Run(s, held).rotation <= Bound
  {
    if |held| > 0 {
      SwingBounded(s, held[..|held| - 1]);
    }
  }

  /** While the key is up nothing moves, however many frames pass. */
  lemma {:induction false} IdleKeepsStill(s: Swing, n: nat)
    ensures
      var r := Run(s, seq(n, _ => false));
      r.rotation == s.rotation && r.childSpin == s.childSpin
  {
    if n > 0 {
      IdleKeepsStill(s, n - 1);
      assert seq(n, _ => false)[..n - 1] == seq(n - 1, _ => false);
    }
  }

  /** The group rotation is never eased (`rot` stays 0), so every frame puts
      the camera at x = 0, z = 50, keeping the height 2 it starts at. */
  const CameraStart: Vec3 := Vec3(0.0, 2.0, 0.0)
  const RotDegrees: real := 0.0

  lemma FixedCamera(m: MathLib)
    requires Lawful(m)
    ensures Camera.PlaceCamera(m, CameraStart, RotDegrees) == Vec3(0.0, 2.0, 50.0)
  {
  }

  /** The five boxes: box i at (3 (i - 5), 3 (i - 5), 0), every one turned
      (0, 0, 15). They sit on the diagonal x == y of the plane z = 0, three
      apart, from (-15, -15) up to (-3, -3). */
  datatype Box = Box(position: Vec3, rotation: Vec3)

  const BoxCount: nat := 5

  function Boxes(): (b: seq<Box>)
    ensures |b| == BoxCount
    ensures forall i :: 0 <= i < |b| ==>
      b[i].position.x == b[i].position.y && b[i].position.z == 0.0 && b[i].rotation == Vec3(0.0, 0.0, 15.0)
    ensures b[0].position.x == -15.0 && b[BoxCount - 1].position.x == -3.0
    ensures forall i :: 0 < i < |b| ==> b[i].position.x == b[i - 1].position.x + 3.0
  {
    seq(BoxCount, i requires 0 <= i => BoxAt(i))
  }

  function BoxAt(i: nat): Box {
    var c := 3.0 * (i as real - BoxCount as real);
    Box(Vec3(c, c, 0.0), Vec3(0.0, 0.0, 15.0))
  }
}

/** The random-boxes scene (src/plugins/randomBoxGeometries.tsx): a camera
    that eases toward an angle set by the mouse, a cloud of randomly placed
    boxes, a 20 x 20 x 20 grid merged into one spinning mesh, and the
    per-frame spins. */
module RandomBoxes {
  import opened Vectors
  import opened Maths
  import Camera

  /** The fraction of the remaining gap the camera angle closes each frame. */
  const Easing: real := 0.02

  /** The camera angle the mouse asks for: the mouse's x position as a share
      of the window's width, times 360 degrees. */
  function TargetRot(mouseX: real, width: real): (t: real)
    requires width > 0.0
    ensures 0.0 <= mouseX <= width ==> 0.0 <= t <= 360.0
    ensures t * width == mouseX * 360.0
  {
    (mouseX / width) * 360.0
  }

  /** One easing step `rot += (target - rot) * 0.02`: the gap to the target
      shrinks to 0.98 of itself, so the new angle lies between the old one and
      the target. */
  function Ease(rot: real, target: real): (r: real)
    ensures target - r == 0.98 * (target - rot)
    ensures rot <= target ==> rot <= r <= target
    ensures target <= rot ==> target <= r <= rot
  {
    rot + (target - rot) * Easing
  }

  function Pow(x: real, n: nat): real {
    if n == 0 then 1.0 else x * Pow(x, n - 1)
  }

  lemma {:induction false} PowBounds(x: real, n: nat)
    requires 0.0 < x <= 1.0
    ensures 0.0 < Pow(x, n) <= 1.0
  {
    if n > 0 {
      PowBounds(x, n - 1);
      MulPositive(x, Pow(x, n - 1));
      MulAtMostOne(x, Pow(x, n - 1));
    }
  }

  lemma MulAtMostOne(a: real, b: real)
    requires 0.0 < a <= 1.0 && 0.0 < b <= 1.0
    ensures a * b <= 1.0
  {
    if a < 1.0 {
      MulRightStrict(b, a, 1.0);
    } else {
      MulOne(b, a);
    }
  }

  /** `n` frames of easing toward a fixed target. */
  function EaseTimes(rot: real, target: real, n: nat): real {
    if n == 0 then rot else Ease(EaseTimes(rot, target, n - 1), target)
  }

  /** With the mouse still, after `n` frames the gap is 0.98^n of the first
      one: it shrinks every frame, never changes sign and the angle never
      passes the target. */
  lemma {:induction false} EaseConverges(rot: real, target: real, n: nat)
    ensures target - EaseTimes(rot, target, n) == Pow(0.98, n) * (target - rot)
    ensures 0.0 < Pow(0.98, n) <= 1.0
  {
    PowBounds(0.98, n);
    if n > 0 {
      EaseConverges(rot, target, n - 1);
      var g := target - rot;
      var p := Pow(0.98, n - 1);
      assert 0.98 * (p * g) == (0.98 * p) * g;
    }
  }

  /** The camera follows the eased angle on the circle of radius 50. */
  lemma CameraOnCircle(m: MathLib, camera: Vec3, rot: real, target: real)
    requires Lawful(m)
    ensures
      var c := Camera.PlaceCamera(m, camera, Ease(rot, target));
      c.x * c.x + c.z * c.z == 2500.0 && c.y == camera.y
  {
  }

  /** The spins of the scene: the merged grid mesh about each axis and every
      random box about y. */
  datatype Spins = Spins(mesh: Vec3, boxes: seq<real>)

  /** One frame's spins: every box and every axis of the mesh turns 0.01, and
      while the key is held a further 0.05 for the boxes and 0.01 for the mesh.
      The boxes all turn by the same amount, so their rotations relative to
      one another never change. */
  function SpinFrame(s: Spins, held: bool): (r: Spins)
    ensures |r.boxes| == |s.boxes|
    ensures forall i, j :: 0 <= i < |s.boxes| && 0 <= j < |s.boxes| ==>
      r.boxes[i] - r.boxes[j] == s.boxes[i] - s.boxes[j]
    ensures forall i :: 0 <= i < |s.boxes| ==>
      r.boxes[i] - s.boxes[i] == r.mesh.y - s.mesh.y + (if held then 0.04 else 0.0)
    ensures r.mesh.x - s.mesh.x == r.mesh.y - s.mesh.y == r.mesh.z - s.mesh.z
    ensures r.mesh.y - s.mesh.y == (if held then 0.02 else 0.01)
  {
    var mesh := Add(s.mesh, Vec3(0.01, 0.01, 0.01));
    var boxes := seq(|s.boxes|, i requires 0 <= i < |s.boxes| => s.boxes[i] + 0.01);
    if held then
      Spins(Add(mesh, Vec3(0.01, 0.01, 0.01)), seq(|boxes|, i requires 0 <= i < |boxes| => boxes[i] + 0.05))
    else
      Spins(mesh, boxes)
  }

  /** Number of random boxes. */
  const RandomCount: nat := 3000

  /** A random box coordinate, `Math.random() * 100 - 50`. */
  function Scatter(u: real): (c: real)
    ensures 0.0 <= u < 1.0 ==> -50.0 <= c < 50.0
  {
    u * 100.0 - 50.0
  }

  /** The random boxes placed from the draws of `Math.random`, three per box
      in the order x, y, z. With every draw in [0, 1) every box lies in the
      cube [-50, 50)^3. */
  method ScatterBoxes(draws: seq<real>) returns (boxes: seq<Vec3>)
    requires |draws| == 3 * RandomCount
    ensures |boxes| == RandomCount
    ensures forall i :: 0 <= i < RandomCount ==>
      boxes[i] == Vec3(Scatter(draws[3 * i]), Scatter(draws[3 * i + 1]), Scatter(draws[3 * i + 2]))
    ensures (forall k :: 0 <= k < |draws| ==> 0.0 <= draws[k] < 1.0) ==>
      forall i :: 0 <= i < RandomCount ==> InCube(boxes[i], 50.0)
  {
    boxes := [];
    var i := 0;
    while i < RandomCount
      invariant 0 <= i <= RandomCount
      invariant |boxes| == i
      invariant forall j :: 0 <= j < i ==>
        boxes[j] == Vec3(Scatter(draws[3 * j]), Scatter(draws[3 * j + 1]), Scatter(draws[3 * j + 2]))
    {
      boxes := boxes + [Vec3(Scatter(draws[3 * i]), Scatter(draws[3 * i + 1]), Scatter(draws[3 * i + 2]))];
      i := i + 1;
    }
  }

  /** Every coordinate of `p` is in [-h, h). */
  predicate InCube(p: Vec3, h: real) {
    -h <= p.x < h && -h <= p.y < h && -h <= p.z < h
  }

  /** Cells per side of the grid. */
  const CellNum: int := 20

  /** The grid cell offsets: for i, j, k from 0 to 19 in that nesting order,
      (i - 10, j - 10, k - 10). */
  method Grid() returns (cells: seq<(int, int, int)>)
    ensures |cells| == CellNum * CellNum * CellNum
    ensures forall n :: 0 <= n < |cells| ==> cells[n] == GridCell(n)
    ensures forall n :: 0 <= n < |cells| ==>
      -10 <= cells[n].0 < 10 && -10 <= cells[n].1 < 10 && -10 <= cells[n].2 < 10
    ensures forall a, b :: 0 <= a < b < |cells| ==> cells[a] != cells[b]
  {
    cells := [];
    var i := 0;
    while i < CellNum
      invariant 0 <= i <= CellNum
      invariant |cells| == i * CellNum * CellNum
      invariant forall n :: 0 <= n < |cells| ==> cells[n] == GridCell(n)
    {
      var j := 0;
      while j < CellNum
        invariant 0 <= j <= CellNum
        invariant |cells| == i * CellNum * CellNum + j * CellNum
        invariant forall n :: 0 <= n < |cells| ==> cells[n] == GridCell(n)
      {
        var k := 0;
        while k < CellNum
          invariant 0 <= k <= CellNum
          invariant |cells| == i * CellNum * CellNum + j * CellNum + k
          invariant forall n :: 0 <= n < |cells| ==> cells[n] == GridCell(n)
        {
          CellOf(i, j, k);
          cells := cells + [(i - CellNum / 2, j - CellNum / 2, k - CellNum / 2)];
          k := k + 1;
        }
        j := j + 1;
      }
      i := i + 1;
    }
    forall a, b | 0 <= a < b < |cells|
      ensures cells[a] != cells[b]
    {
      GridCellInjective(a, b);
    }
  }

  /** The offset of the `n`-th box the nested loops produce. */
  function GridCell(n: int): (int, int, int) {
    (n / (CellNum * CellNum) - 10, (n / CellNum) % CellNum - 10, n % CellNum - 10)
  }

  lemma CellOf(i: int, j: int, k: int)
    requires 0 <= i < CellNum && 0 <= j < CellNum && 0 <= k < CellNum
    ensures GridCell(i * CellNum * CellNum + j * CellNum + k) == (i - 10, j - 10, k - 10)
  {
  }

  lemma GridCellInjective(a: int, b: int)
    requires 0 <= a < b < CellNum * CellNum * CellNum
    ensures GridCell(a) != GridCell(b)
  {
    CellDigits(a);
    CellDigits(b);
  }

  /** A box's index is recovered from its offset: n is read in base 20. */
  lemma CellDigits(n: int)
    requires 0 <= n
    ensures n == 400 * (GridCell(n).0 + 10) + 20 * (GridCell(n).1 + 10) + (GridCell(n).2 + 10)
  {
    var q := n / 20;
    assert n == 20 * q + n % 20;
    assert q == 20 * (q / 20) + q % 20;
    assert q / 20 == n / 400;
  }
}

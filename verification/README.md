# three.js scene animation, modelled in Dafny

This project models the animation logic of four three.js demo scenes:

- The **orbit scene** (`src/plugins/orbitTheEarth.tsx`) has an earth with
  city markers placed from latitude and longitude. Great-circle arcs run from
  Japan to each city. Every frame:
  - the moon, a plane and an "artificial satellite" are placed from sin and
    cos of the elapsed time;
  - two satellites chase the moon with a steering rule (blend a small step
    toward the target into the unit heading, re-normalise, advance by the
    speed, and turn the orientation by the rotation between the old heading
    and the new one);
  - the plane steers with the same rule toward a point that moves with time;
  - ambient spins grow by fixed amounts.
- The **group-rotation scene** (`src/plugins/rotateAsGroup.tsx`) has a
  two-state swing. While a key is held, the parent group turns 0.01 a frame
  and reverses past ±1.35 radians. It also places five boxes and a fixed
  camera.
- The **random-boxes scene** (`src/plugins/randomBoxGeometries.tsx`) has:
  - a camera on a circle of radius 50 that eases toward an angle set by the
    mouse;
  - 3000 randomly scattered boxes;
  - a 20 × 20 × 20 grid;
  - fixed per-frame spins.
- The **ring scene** (`src/plugins/raycasterEffect.tsx`) has 50 planes on a
  ring of radius 8.5, in 5 stacked groups of 10. It handles:
  - hover: lift and highlight;
  - click: highlight;
  - wheel: turn the ring and collapse the stack until the wheel stops.

The numbers are exact `real`s. JavaScript's `Math` becomes a parameter, a
`MathLib` value holding `PI`, `sin`, `cos`, `acos` and `sqrt`. Every member
that needs it requires `Lawful(m)`, a handful of identities true of the real
functions:
- sin² + cos² = 1;
- the values at 0 and ±π/2;
- acos 1 = 0, and on [-1, 1] acos inverts cos with a non-negative sine;
- the double-angle formulas for sin and cos;
- sqrt is the non-negative square root, positive on positive arguments.

The three.js operations the scenes call are written out with three.js's own
formulas:
- `Vector3.normalize` divides by the length, or by 1 when the length is 0,
  so the zero vector stays zero;
- `Vector3.angleTo` clamps the cosine and gives π/2 for a zero vector;
- `Quaternion.setFromAxisAngle`;
- `multiplyQuaternions`, which `premultiply` uses;
- `Vector3.applyQuaternion`.

Because of this, no step needs a non-degeneracy precondition. Each property
states its own hypotheses instead. The three.js library itself is not part
of this model.

Modules:
- `Vectors`, `Maths` and `Quaternions` are the arithmetic.
- `Wrappers` holds `Option`.
- `Globe` is the city markers and arcs.
- `Pursuit` is the steering rule.
- `OrbitScene` is the orbit scene's state and frame.
- `Camera` is the camera circle shared by two scenes.
- `RotateGroup`, `RandomBoxes` and `RingScene` are the other scenes.

Where the code's behaviour is surprising, the model follows the code:
- The satellites take `Math.acos` of the raw dot product; only the plane's
  `angleTo` clamps. Over exact reals the dot product of two unit headings
  never leaves [-1, 1]. `Pursuit.AngleRulesAgree` shows that the two rules
  agree there.
- `createOrbitPoints` accepts 0 segments and then returns just the end point.
- The city list is modelled with the coordinates as written. The labels in
  the source do not always match them: the pairs labelled Beijing and Los
  Angeles have their longitudes' signs swapped relative to those cities.

## Model

| member | source | states |
|---|---|---|
| Globe.CityPoint | src/plugins/orbitTheEarth.tsx:288-303 | every city point lies on the sphere of radius 0.5 (x²+y²+z² = 0.25), and latitude ±90 gives (0, ±0.5, 0) whatever the longitude |
| Globe.ArcVertex | src/plugins/orbitTheEarth.tsx:324-338 | vertex 0 is the start; when start × end is not zero every vertex keeps the start's distance from the centre, lies in the plane through the centre holding start and end (perpendicular to the axis), and is turned from the start by exactly i/n of angleTo(start, end) toward the end (its dot products with the start and with axis × start are the start's squared length times that angle's cosine and sine); when start × end is zero every vertex is the start |
| Globe.ArcReachesEnd | src/plugins/orbitTheEarth.tsx:324-344 | for two points of the globe's surface that are not parallel, the rotation about normalize(start × end) by the whole of angleTo(start, end) carries the start exactly onto the end, so the appended end point continues the arc the vertices trace |
| Globe.OrbitPoints | src/plugins/orbitTheEarth.tsx:314-344 | exactly n+1 points; points 0..n-1 are the arc vertices; the last is exactly the end; the first is the start when n > 0; all arc vertices keep the start's length when start × end is not zero |
| Globe.LinePoints | src/plugins/orbitTheEarth.tsx:353-362 | a line has 16 points from the start exactly to the end, the 15 arc vertices staying at the start's distance when the ends are not parallel, and all equal to the start when start × end is zero |
| Globe.SurfaceLine | src/plugins/orbitTheEarth.tsx:607-613 | a line between two points of the earth's surface joins them, and every one of its points is on the surface both when they are not parallel and when start × end is zero |
| Globe.MarkCities | src/plugins/orbitTheEarth.tsx:588-614 | one marker and one line per city; every marker is on the sphere, the last two at the poles; every line runs from the Japan marker to its city's marker and stays on the sphere when the two are not parallel and when their cross product is zero |
| Maths.Normalize | src/plugins/orbitTheEarth.tsx:698-703 | the result has length 1 when the input has positive length, and the zero vector is left as it is |
| Maths.NormalizeMultiple | src/plugins/orbitTheEarth.tsx:698-703 | normalising a positive multiple of a vector of positive length gives the same unit vector as normalising the vector |
| Quaternions.FromAxisAngle | src/plugins/orbitTheEarth.tsx:335 | a unit axis gives a unit quaternion; angle 0 gives the identity; the zero axis gives no vector part |
| Quaternions.Rotate | src/plugins/orbitTheEarth.tsx:337 | a unit quaternion preserves length; the identity and any quaternion without vector part leave the vector unchanged |
| Quaternions.RotatePerpendicular | src/plugins/orbitTheEarth.tsx:335-337 | rotating a vector perpendicular to a unit axis by the quaternion of that axis and a half angle gives Rodrigues' formula v·cos + (axis × v)·sin, with cos = 1 − 2s² and sin = 2sc from the half angle's sine s and cosine c |
| Quaternions.RotateScale | src/plugins/orbitTheEarth.tsx:337 | rotating a scaled vector gives the scaled rotation: applyQuaternion is linear in the vector |
| Quaternions.Multiply | src/plugins/orbitTheEarth.tsx:720 | the norm of the product is the product of the norms, so premultiplying keeps a unit orientation unit |
| Quaternions.MultiplyIdentity | src/plugins/orbitTheEarth.tsx:720 | premultiplying or postmultiplying by the identity quaternion leaves a quaternion unchanged |
| Pursuit.AngleRulesAgree | src/plugins/orbitTheEarth.tsx:714-795 | between unit headings acos(prev · next), which the satellites use, equals prev.angleTo(next), which the plane uses |
| Pursuit.Steer | src/plugins/orbitTheEarth.tsx:693-703 | from a unit heading the new heading normalize(heading + 0.05 · normalize(toward)) is a unit vector less than a right angle from the old one |
| Pursuit.Turn | src/plugins/orbitTheEarth.tsx:708-718 | between unit headings less than a right angle apart the turn rotation is a unit quaternion, and the identity when the headings do not differ |
| Pursuit.TurnOnto | src/plugins/orbitTheEarth.tsx:708-718 | between unit headings that are not parallel, the turn (about the normalised cross product, by acos of the dot product or by angleTo) carries the old heading exactly onto the new one |
| Pursuit.Fly | src/plugins/orbitTheEarth.tsx:690-720 | the new heading is the steered one and the new orientation is the old one premultiplied by the turn from the old heading to the new; the flyer advances `speed` along its new heading; one with unit heading and unit orientation keeps both, moves exactly `speed` in the frame and turns less than a right angle |
| Pursuit.FlyTurn | src/plugins/orbitTheEarth.tsx:690-720 | for a steady flyer the rotation premultiplied into the orientation carries the old heading exactly onto the new one when they are not parallel, and when they are parallel the orientation does not change |
| Pursuit.StraightOn | src/plugins/orbitTheEarth.tsx:690-720 | a flyer whose target lies on the line of its heading (ahead, behind, or at the flyer itself) keeps its heading and orientation and just advances `speed` along the heading |
| Pursuit.SteerAlong | src/plugins/orbitTheEarth.tsx:693-703 | steering a unit heading toward any point on its own line, ahead, behind or at the origin, gives back the same heading |
| OrbitScene.SpinsAfter | src/plugins/orbitTheEarth.tsx:665-671 | after n frames the moon, cloud, star, earth and city spins have grown by n times 0.01, 0.003, 0.002, 0.002 and 0.002 |
| OrbitScene.Initial | src/plugins/orbitTheEarth.tsx:504-555 | the initial satellites and plane head straight up (the normalised (0, 1, 0)) with identity orientation, so the scene starts steady |
| OrbitScene.MoonAt | src/plugins/orbitTheEarth.tsx:674-678 | the moon is on the circle of radius 3 in the plane y = 0 |
| OrbitScene.PlaneRing | src/plugins/orbitTheEarth.tsx:679 | the plane's reset point is on the circle of radius 0.55 in the plane y = 0 |
| OrbitScene.PlaneTarget | src/plugins/orbitTheEarth.tsx:761-772 | the plane's steering vector endLand − startFly is on the same circle, a quarter turn (orthogonal) from the reset point |
| OrbitScene.ArtificialSatelliteAt | src/plugins/orbitTheEarth.tsx:680-684 | the artificial satellite always has x == y and its (x, z) on the circle of radius 0.8 |
| OrbitScene.Frame | src/plugins/orbitTheEarth.tsx:651-803 | spins advance; the moon and artificial satellite are placed from the time before either satellite steers toward the moon's new position; steady flyers stay steady; each satellite moves exactly 0.0095 (the second 0.7 times that) and the plane ends exactly 0.008 from its reset point |
| OrbitScene.PlaneForgetsPosition | src/plugins/orbitTheEarth.tsx:760-802 | the plane's state after a frame does not depend on where it was, only on the time and its heading and orientation |
| OrbitScene.RunSteady | src/plugins/orbitTheEarth.tsx:690-802 | from the initial scene, over any sequence of frame times, all three flyers keep a unit heading and a unit orientation |
| OrbitScene.RunKeepsSteady | src/plugins/orbitTheEarth.tsx:690-802 | from any scene whose three flyers are steady, any sequence of frames keeps them steady |
| OrbitScene.RunSpins | src/plugins/orbitTheEarth.tsx:665-671 | over any run of frames each spin grows by one increment per frame |
| Camera.PlaceCamera | src/plugins/randomBoxGeometries.tsx:262-265 | the camera lands on x² + z² = 50² with its height unchanged, and angle 0 puts it at (0, y, 50) |
| RotateGroup.NextReversing | src/plugins/rotateAsGroup.tsx:324-329 | the flag comes out set exactly when the rotation is above 1.35, or it was set and the rotation is not below −1.35 |
| RotateGroup.Tick | src/plugins/rotateAsGroup.tsx:324-365 | the flag updates every frame; key up: nothing moves; key held: the parent turns by exactly 0.01, back toward 0 once past a threshold, and the child's z rotation falls by 0.1; the range [−1.36, 1.36] is preserved |
| RotateGroup.SwingBounded | src/plugins/rotateAsGroup.tsx:324-340 | over any sequence of held and released frames, from any rotation within [−1.36, 1.36] (the constructor's 0 included), the rotation stays within it |
| RotateGroup.IdleKeepsStill | src/plugins/rotateAsGroup.tsx:331-373 | however many frames pass with the key up, the parent's and child's rotations do not change |
| RotateGroup.FixedCamera | src/plugins/rotateAsGroup.tsx:300-303 | with the rotation angle left at 0, every frame puts the camera at (0, 2, 50): on the +z axis, 50 from the centre, at its starting height 2 |
| RotateGroup.Boxes | src/plugins/rotateAsGroup.tsx:174-185 | five boxes on the diagonal x == y of the plane z = 0, three apart from (−15, −15) to (−3, −3), each turned (0, 0, 15) |
| RandomBoxes.TargetRot | src/plugins/randomBoxGeometries.tsx:256 | the target angle is the mouse's share of the window width times 360, within [0, 360] when the mouse is inside the window |
| RandomBoxes.Ease | src/plugins/randomBoxGeometries.tsx:259 | one step leaves 0.98 of the gap to the target, so the new angle lies between the old one and the target |
| RandomBoxes.EaseConverges | src/plugins/randomBoxGeometries.tsx:256-259 | with a fixed target the gap after n frames is 0.98ⁿ times the first gap, a factor in (0, 1]: no overshoot, no sign change |
| RandomBoxes.CameraOnCircle | src/plugins/randomBoxGeometries.tsx:259-265 | the eased camera is always on x² + z² = 2500 with its height untouched |
| RandomBoxes.SpinFrame | src/plugins/randomBoxGeometries.tsx:271-293 | all boxes turn by the same amount (0.01, or 0.06 held), so their relative rotations never change; the mesh turns equally about x, y and z (0.01, or 0.02 held) |
| RandomBoxes.Scatter | src/plugins/randomBoxGeometries.tsx:146-148 | a draw in [0, 1) gives a coordinate in [−50, 50) |
| RandomBoxes.ScatterBoxes | src/plugins/randomBoxGeometries.tsx:143-151 | 3000 boxes, each placed from three successive draws; with draws in [0, 1) every box is in the cube [−50, 50)³ |
| RandomBoxes.Grid | src/plugins/randomBoxGeometries.tsx:155-172 | exactly 20³ = 8000 offsets in loop order, every component in −10..9, pairwise distinct |
| RingScene.Rad | src/plugins/raycasterEffect.tsx:131-138 | the angle between neighbouring planes is 2π/50 |
| RingScene.RingPoint | src/plugins/raycasterEffect.tsx:472-480 | plane i stands at height 0 on the circle x² + z² = 8.5² |
| RingScene.Members | src/plugins/raycasterEffect.tsx:489-499 | a group's members are exactly the indices g·10 + j with j from 0 to 9 that are below 50 |
| RingScene.GroupsPartition | src/plugins/raycasterEffect.tsx:489-499 | plane p is in group g exactly when p < 50 and g = p / 10: every plane is in exactly one group |
| RingScene.GroupSizes | src/plugins/raycasterEffect.tsx:489-499 | each of the 5 groups holds exactly the 10 consecutive planes 10g..10g+9, in order |
| RingScene.RestOffset | src/plugins/raycasterEffect.tsx:503-508 | every group rests on the vertical line through the centre, never above it, and exactly the first group rests at the centre |
| RingScene.RestOffsetsStack | src/plugins/raycasterEffect.tsx:503-508 | each group rests exactly 0.3 below the one before it |
| RingScene.RestOffsetsDistinct | src/plugins/raycasterEffect.tsx:503-508 | two groups rest at the same place exactly when they are the same group |
| RingScene.Initial | src/plugins/raycasterEffect.tsx:472-508 | the initial ring is consistent and every plane stands on its own ring point, facing the centre, with the plain material: nothing is highlighted or lifted, no wheel gesture is under way, the ring is not turned and the groups are at rest |
| RingScene.Wheel | src/plugins/raycasterEffect.tsx:309-355 | a wheel event starts the gesture, moves every group to the origin and turns the ring by exactly 0.05, forward exactly when deltaY ≥ 0; the planes are untouched |
| RingScene.WheelIgnoresHistory | src/plugins/raycasterEffect.tsx:342-352 | the stored previous delta never influences a wheel event's effect |
| RingScene.WheelEnd | src/plugins/raycasterEffect.tsx:326-338 | when the end-of-wheel timer fires every group is back at rest and the gesture is over; with no gesture under way nothing happens |
| RingScene.MouseMove | src/plugins/raycasterEffect.tsx:210-278 | after a hover every plane is on its ring point with height 0 except the hovered one at 0.2; exactly the hovered plane (if any, and only when indexOf found it) is highlighted and remembered as lifted |
| RingScene.Click | src/plugins/raycasterEffect.tsx:145-205 | after a click exactly the clicked plane, if any, is highlighted; nothing moves |
| RingScene.HandleConsistent | src/plugins/raycasterEffect.tsx:145-355 | every event keeps the ring consistent: planes on their ring points facing the centre, at most one lifted (at 0.2), at most one highlighted, groups at the origin during a wheel gesture and at rest otherwise |
| RingScene.Replay | src/plugins/raycasterEffect.tsx:145-355 | any sequence of events from a consistent ring leaves it consistent |

## Left out

- Rendering and three.js objects are not modelled: renderer, textures,
  materials other than plain/highlight, lights, fog, the Fresnel shader,
  OrbitControls and `requestAnimationFrame`. Neither is the three.js library
  itself; its vector and quaternion formulas are written out in `Maths` and
  `Quaternions`.
- Floating point is not modelled. All arithmetic is exact; sin, cos, acos and
  sqrt are constrained only by the identities in `Maths.Lawful`. In
  particular the `=== 0` test in the group-rotation flag update is an exact
  comparison here.
- The elapsed-time clock, the key state, the mouse position, the window
  width, `Math.random` draws and the ray caster's hits are inputs. The hit
  is an optional plane index, or −1 from `indexOf`. The 100 ms wheel timer
  is the `WheelStopped` event, which the model accepts at any time; it does
  nothing unless a gesture is under way.
- Scene-graph parenting and world transforms are not modelled. Positions are
  the local positions the code sets: plane within earth group, planes within
  their groups. The group-rotation scene's child group offset (0, 0, 10)
  is such a transform and is left out with them.
- Marker and line scales (1.1 and 1.02) and the mesh scales are not
  modelled; they are visual only.
- The orbit scene's key handler is left out, because its `isDown` branch is
  empty.
- Resize handlers are left out, as are the React, Lenis and router plumbing,
  the page and component files, and `src/plugins/getApplyGpsPosition.tsx`,
  which wraps a geo-utility that is not part of this model.
- Pursuit convergence over many frames toward a fixed target is not
  modelled. It would need values of sin, cos and acos that `MathLib` does not
  fix.
- Globe.ArcVertex: the properties are stated for start × end of positive
  length and, separately, for start × end equal to zero. The solver in use
  does not close the step "a non-zero vector has positive length", so the
  two cases are not joined into one unconditional statement.
- Globe.ArcReachesEnd: proved for arcs between two points of the globe's
  surface (radius 0.5), which every arc the scene draws joins, and not for
  any two points of equal length.
- Pursuit.Fly: does not prove that the orientation keeps the body's up axis
  along the heading from frame to frame (rotating (0, 1, 0) by the
  orientation gives the heading). `Pursuit.FlyTurn` shows each frame's turn
  carries the old heading onto the new one. Joining the frames needs
  rotation by a product of quaternions to equal one rotation after the
  other, a high-degree polynomial identity the solver in use does not close.
- Globe.MarkCities: lines are shown to stay on the sphere when Japan × city
  has positive length and when it is zero, as for `Globe.ArcVertex`. The
  two cases are not joined into one unconditional statement, for the same
  reason: the solver step "a non-zero vector has positive length".
- RandomBoxes.TargetRot: requires a window of positive width; the source
  would divide by zero otherwise.

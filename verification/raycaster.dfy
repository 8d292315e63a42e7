/** The ring scene (src/plugins/raycasterEffect.tsx): 50 planes stand on a
    ring of radius 8.5, facing the centre, split into 5 stacked groups of 10.
    Hovering lifts and highlights the plane under the mouse, clicking
    highlights the plane clicked, and the wheel turns the whole ring while
    collapsing the stack until the wheel has been still for 100 ms. Which
    plane the mouse is over comes from the ray caster and is an input here. */
module RingScene {
  import opened Vectors
  import opened Maths
  import opened Wrappers

  const GroupCount: nat := 5
  const PlaneInGroup: nat := 10
  const PlaneTotal: nat := GroupCount * PlaneInGroup
  /** The angle between neighbouring planes, in degrees. */
  const Deg: real := 360.0 / PlaneTotal as real
  const RingRadius: real := 8.5
  /** How far apart the groups are stacked. */
  const GroupGap: real := 0.3
  /** How high a hovered plane is lifted. */
  const Lift: real := 0.2
  /** How far one wheel event turns the ring. */
  const WheelTurn: real := 0.05

  /** The angle between neighbouring planes, in radians: 2 pi / 50. */
  function Rad(m: MathLib): (r: real)
    ensures r == 2.0 * m.pi / PlaneTotal as real
  {
    (Deg * m.pi) / 180.0
  }

  /** Plane `i`'s place on the ring. Every one is 8.5 from the axis, at
      height 0. */
  function RingPoint(m: MathLib, i: nat): (p: Vec3)
    requires Lawful(m)
    ensures p.y == 0.0 && p.x * p.x + p.z * p.z == RingRadius * RingRadius
  {
    var a := Rad(m) * i as real;
    SinCos(m, a);
    RingIdentity(m.cos(a), m.sin(a));
    Vec3(RingRadius * m.cos(a), 0.0, RingRadius * m.sin(a))
  }

  lemma RingIdentity(c: real, s: real)
    requires s * s + c * c == 1.0
    ensures (RingRadius * c) * (RingRadius * c) + (RingRadius * s) * (RingRadius * s) == RingRadius * RingRadius
  {
    assert (RingRadius * c) * (RingRadius * c) + (RingRadius * s) * (RingRadius * s)
      == (RingRadius * RingRadius) * (s * s + c * c);
    MulOne(RingRadius * RingRadius, s * s + c * c);
  }

  /** Plane `i`'s turn about y, `-1 * rad * i`, so that it faces the centre. */
  function Facing(m: MathLib, i: nat): real {
    -1.0 * (Rad(m) * i as real)
  }

  /** The planes that group `g` holds: indices `g * 10 + j` for j below 10,
      kept only when below the total. */
  function GroupMembers(g: nat): seq<nat> {
    Members(g, 0)
  }

  function Members(g: nat, j: nat): (s: seq<nat>)
    requires j <= PlaneInGroup
    ensures forall p :: p in s <==> j <= p - g * PlaneInGroup < PlaneInGroup && p < PlaneTotal
    decreases PlaneInGroup - j
  {
    if j == PlaneInGroup then []
    else
      var index := g * PlaneInGroup + j;
      (if index < PlaneTotal then [index] else []) + Members(g, j + 1)
  }

  /** The groups partition the ring: plane `p` is in group `g` exactly when
      `g` is `p / 10`, so each of the 50 planes is in exactly one of the 5
      groups and each group holds 10 consecutive planes. */
  lemma GroupsPartition(p: nat, g: nat)
    requires g < GroupCount
    ensures p in GroupMembers(g) <==> p < PlaneTotal && p / PlaneInGroup == g
  {
  }

  lemma GroupSizes(g: nat)
    requires g < GroupCount
    ensures |GroupMembers(g)| == PlaneInGroup
    ensures forall j :: 0 <= j < PlaneInGroup ==> GroupMembers(g)[j] == g * PlaneInGroup + j
  {
    MembersFrom(g, 0);
  }

  lemma {:induction false} MembersFrom(g: nat, j: nat)
    requires g < GroupCount && j <= PlaneInGroup
    ensures |Members(g, j)| == PlaneInGroup - j
    ensures forall k :: 0 <= k < PlaneInGroup - j ==> Members(g, j)[k] == g * PlaneInGroup + j + k
    decreases PlaneInGroup - j
  {
    if j < PlaneInGroup {
      MembersFrom(g, j + 1);
    }
  }

  /** Where group `g` rests: straight below the centre, the first group at
      the centre itself and every other one lower. */
  function RestOffset(g: nat): (p: Vec3)
    ensures p.x == 0.0 && p.z == 0.0 && p.y <= 0.0
    ensures p == Zero <==> g == 0
  {
    Vec3(0.0, g as real * GroupGap * -1.0, 0.0)
  }

  /** Each group rests one gap of 0.3 below the one before it. */
  lemma RestOffsetsStack(g: nat)
    ensures RestOffset(g + 1).y == RestOffset(g).y - GroupGap
    ensures RestOffset(g + 1).y < RestOffset(g).y
  {
  }

  /** No two groups rest at the same place. */
  lemma RestOffsetsDistinct(g: nat, h: nat)
    ensures RestOffset(g) == RestOffset(h) <==> g == h
  {
  }

  datatype Material = Plain | Highlight

  datatype Plane = Plane(position: Vec3, turn: real, material: Material)

  /** The ring's state: the planes, the groups' offsets, the whole ring's turn
      about y, whether a wheel gesture is under way (its end-of-wheel timer
      pending), the plane the last hover lifted, and the last wheel delta
      the handler stores. */
  datatype Ring = Ring(
    planes: seq<Plane>,
    groups: seq<Vec3>,
    spin: real,
    wheeling: bool,
    lifted: Option<nat>,
    previousDelta: real)

  /** The ring `init` builds: every plane on its ring point facing the centre
      with the plain material, the groups stacked at rest, nothing lifted. */
  function Initial(m: MathLib): (s: Ring)
    requires Lawful(m)
    ensures Consistent(m, s)
    ensures forall g :: 0 <= g < GroupCount ==> s.groups[g] == RestOffset(g)
    ensures s.lifted == None && !s.wheeling && s.spin == 0.0
    ensures forall i :: 0 <= i < PlaneTotal ==>
      s.planes[i].position == RingPoint(m, i) && s.planes[i].material == Plain
  {
    Ring(
      seq(PlaneTotal, i requires 0 <= i => Plane(RingPoint(m, i), Facing(m, i), Plain)),
      seq(GroupCount, g requires 0 <= g => RestOffset(g)),
      0.0, false, None, 0.0)
  }

  /** Plane `i` where it stands, or lifted when it is the hovered one. */
  function PlaneSpot(m: MathLib, i: nat, lifted: Option<nat>): Vec3
    requires Lawful(m)
  {
    if lifted == Some(i) then RingPoint(m, i).(y := Lift) else RingPoint(m, i)
  }

  /** What every event keeps true: 50 planes and 5 groups; every plane stands
      on its ring point facing the centre, at height 0 except the lifted one
      at 0.2; at most one plane is highlighted; and the groups are all at the
      centre while a wheel gesture is under way and at rest otherwise. */
  ghost predicate Consistent(m: MathLib, s: Ring)
    requires Lawful(m)
  {
    && |s.planes| == PlaneTotal
    && |s.groups| == GroupCount
    && (s.lifted.Some? ==> s.lifted.value < PlaneTotal)
    && (forall i :: 0 <= i < PlaneTotal ==>
          s.planes[i].position == PlaneSpot(m, i, s.lifted) && s.planes[i].turn == Facing(m, i))
    && (forall i, j ::
          0 <= i < PlaneTotal && 0 <= j < PlaneTotal &&
          s.planes[i].material == Highlight && s.planes[j].material == Highlight
          ==> i == j)
    && (forall g :: 0 <= g < GroupCount ==> s.groups[g] == (if s.wheeling then Zero else RestOffset(g)))
  }

  /** A wheel event: the gesture starts (or goes on), every group moves to
      the centre, and the ring turns 0.05 one way or the other. Because the
      stored previous delta is reset to 0 before the comparison, the ring
      turns forward exactly when this event's delta is not negative. */
  function Wheel(s: Ring, deltaY: real): (r: Ring)
    ensures r.wheeling
    ensures |r.groups| == |s.groups| && forall g :: 0 <= g < |r.groups| ==> r.groups[g] == Zero
    ensures r.spin == s.spin + WheelTurn || r.spin == s.spin - WheelTurn
    ensures r.spin > s.spin <==> deltaY >= 0.0
    ensures r.planes == s.planes && r.lifted == s.lifted
  {
    var collapsed := s.(wheeling := true, groups := seq(|s.groups|, _ => Zero));
    var preDeltaY := 0.0;
    if deltaY >= preDeltaY then collapsed.(spin := s.spin + WheelTurn, previousDelta := deltaY)
    else collapsed.(spin := s.spin - WheelTurn, previousDelta := deltaY)
  }

  /** The stored delta plays no part: two rings that differ only in it react
      to the same wheel event in the same way. */
  lemma WheelIgnoresHistory(s: Ring, before1: real, before2: real, deltaY: real)
    ensures Wheel(s.(previousDelta := before1), deltaY) == Wheel(s.(previousDelta := before2), deltaY)
  {
  }

  /** The end-of-wheel timer fires: the gesture is over and every group goes
      back to rest. A later wheel event cancels the timer, so it only fires
      while a gesture is under way; otherwise nothing happens. */
  function WheelEnd(s: Ring): (r: Ring)
    ensures !r.wheeling
    ensures s.wheeling ==> |r.groups| == |s.groups| && forall g :: 0 <= g < |r.groups| ==> r.groups[g] == RestOffset(g)
    ensures !s.wheeling ==> r == s
    ensures r.planes == s.planes && r.lifted == s.lifted && r.spin == s.spin
  {
    if s.wheeling then
      s.(wheeling := false, groups := seq(|s.groups|, g requires 0 <= g => RestOffset(g)))
    else s
  }

  /** A mouse move. Every plane goes back to its ring point with the plain
      material, the plane lifted last time comes down, and then, when the ray
      hit a plane both before and after the reset (`hitBefore`, and `hit`
      being the index `indexOf` found, -1 when it found none), that plane is
      highlighted and lifted to 0.2 and becomes the lifted one. */
  function MouseMove(m: MathLib, s: Ring, hitBefore: bool, hit: Option<int>): (r: Ring)
    requires Lawful(m)
    requires hit.Some? ==> -1 <= hit.value < |s.planes|
    ensures |r.planes| == |s.planes|
    ensures r.lifted == (if hitBefore && hit.Some? && hit.value != -1 then Some(hit.value as nat) else None)
    ensures forall i :: 0 <= i < |r.planes| ==>
      r.planes[i].position == PlaneSpot(m, i, r.lifted) && r.planes[i].turn == s.planes[i].turn
    ensures forall i :: 0 <= i < |r.planes| ==> (r.planes[i].material == Highlight <==> r.lifted == Some(i))
    ensures r.groups == s.groups && r.spin == s.spin && r.wheeling == s.wheeling
  {
    var reset := seq(|s.planes|, i requires 0 <= i < |s.planes| =>
      s.planes[i].(position := RingPoint(m, i), material := Plain));
    var lowered :=
      if s.lifted.Some? && s.lifted.value < |reset| then
        reset[s.lifted.value := reset[s.lifted.value].(position := reset[s.lifted.value].position.(y := 0.0))]
      else reset;
    if hitBefore && hit.Some? && hit.value != -1 then
      var k := hit.value;
      s.(planes := lowered[k := lowered[k].(material := Highlight, position := lowered[k].position.(y := Lift))],
         lifted := Some(k))
    else
      s.(planes := lowered, lifted := None)
  }

  /** A click. Every plane gets the plain material, then the nearest plane
      hit, if any, the highlight. Nothing moves. */
  function Click(s: Ring, hit: Option<nat>): (r: Ring)
    requires hit.Some? ==> hit.value < |s.planes|
    ensures |r.planes| == |s.planes|
    ensures forall i :: 0 <= i < |r.planes| ==>
      r.planes[i].position == s.planes[i].position && r.planes[i].turn == s.planes[i].turn
    ensures forall i :: 0 <= i < |r.planes| ==> (r.planes[i].material == Highlight <==> hit == Some(i))
    ensures r.groups == s.groups && r.spin == s.spin && r.wheeling == s.wheeling && r.lifted == s.lifted
  {
    var plain := seq(|s.planes|, i requires 0 <= i < |s.planes| => s.planes[i].(material := Plain));
    if hit.Some? then s.(planes := plain[hit.value := plain[hit.value].(material := Highlight)])
    else s.(planes := plain)
  }

  /** What can happen to the ring; `render` changes nothing. */
  datatype Event =
    | MouseMoved(hitBefore: bool, hovered: Option<int>)
    | Clicked(clicked: Option<nat>)
    | Wheeled(deltaY: real)
    | WheelStopped

  /** The hits the ray caster can report: a plane of the ring, or -1 from
      `indexOf`. */
  predicate Possible(e: Event) {
    match e
    case MouseMoved(_, hit) => hit.Some? ==> -1 <= hit.value < PlaneTotal
    case Clicked(hit) => hit.Some? ==> hit.value < PlaneTotal
    case _ => true
  }

  function Handle(m: MathLib, s: Ring, e: Event): Ring
    requires Lawful(m) && Possible(e) && |s.planes| == PlaneTotal
  {
    match e
    case MouseMoved(hitBefore, hit) => MouseMove(m, s, hitBefore, hit)
    case Clicked(hit) => Click(s, hit)
    case Wheeled(deltaY) => Wheel(s, deltaY)
    case WheelStopped => WheelEnd(s)
  }

  /** Every event keeps the ring consistent. */
  lemma HandleConsistent(m: MathLib, s: Ring, e: Event)
    requires Lawful(m) && Possible(e) && Consistent(m, s)
    ensures Consistent(m, Handle(m, s, e))
  {
    var r := Handle(m, s, e);
    match e
    case MouseMoved(hitBefore, hit) =>
      forall i, j | 0 <= i < PlaneTotal && 0 <= j < PlaneTotal &&
          r.planes[i].material == Highlight && r.planes[j].material == Highlight
        ensures i == j
      {
      }
    case Clicked(hit) =>
    case Wheeled(_) =>
    case WheelStopped =>
  }

  /** The ring after a sequence of events; every one keeps it consistent. */
  function Replay(m: MathLib, s: Ring, events: seq<Event>): (r: Ring)
    requires Lawful(m) && Consistent(m, s)
    requires forall k :: 0 <= k < |events| ==> Possible(events[k])
    ensures Consistent(m, r)
  {
    if |events| == 0 then s
    else
      var before := Replay(m, s, events[..|events| - 1]);
      HandleConsistent(m, before, events[|events| - 1]);
      Handle(m, before, events[|events| - 1])
  }
}

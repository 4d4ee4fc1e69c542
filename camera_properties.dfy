/** What the camera's update rules imply: the shape of the basis, and what a
    sequence of keyboard, mouse and scroll events adds up to. */
module CameraProperties {
  import opened Vectors
  import opened Camera

  // ---------------------------------------------------------------------------
  // The basis

  /** Over the reals, the computed basis is mutually orthogonal whatever the
      math library returns: Right and Up are scaled cross products. */
  lemma BasisOrthogonal(yaw: real, pitch: real, worldUp: Vec3, m: MathLib)
    ensures var b := CameraBasis(yaw, pitch, worldUp, m);
      Dot(b.right, b.front) == 0.0 && Dot(b.up, b.front) == 0.0 && Dot(b.up, b.right) == 0.0
  {
    var b := CameraBasis(yaw, pitch, worldUp, m);
    var c := Cross(b.front, worldUp);
    CrossOrthogonal(b.front, worldUp);
    DotScaleLeft(c, m.inverseSqrt(Dot(c, c)), b.front);
    var u := Cross(b.right, b.front);
    CrossOrthogonal(b.right, b.front);
    DotScaleLeft(u, m.inverseSqrt(Dot(u, u)), b.front);
    DotScaleLeft(u, m.inverseSqrt(Dot(u, u)), b.right);
  }

  /** cos^2 + sin^2 = 1 at angle t (in radians). */
  ghost predicate PythagoreanAt(m: MathLib, t: real) {
    m.cos(t) * m.cos(t) + m.sin(t) * m.sin(t) == 1.0
  }

  /** The inverse square root is exact at x. */
  ghost predicate InverseSqrtAt(m: MathLib, x: real) {
    m.inverseSqrt(x) * m.inverseSqrt(x) * x == 1.0
  }

  /** The inverse square root is exact at the squared length of the cross
      product Right is normalised from. This also rules out a zero cross
      product (k * k * 0 is never 1), that is, a front parallel to world-up. */
  ghost predicate RightWellDefined(yaw: real, pitch: real, worldUp: Vec3, m: MathLib) {
    var c := Cross(CameraBasis(yaw, pitch, worldUp, m).front, worldUp);
    InverseSqrtAt(m, Dot(c, c))
  }

  lemma SphericalUnit(cy: real, sy: real, cp: real, sp: real)
    requires cy * cy + sy * sy == 1.0 && cp * cp + sp * sp == 1.0
    ensures (cy * cp) * (cy * cp) + sp * sp + (sy * cp) * (sy * cp) == 1.0
  {
    assert (cy * cp) * (cy * cp) + (sy * cp) * (sy * cp) == (cy * cy + sy * sy) * (cp * cp);
  }

  /** glm::normalize gives a unit vector wherever the inverse square root is exact. */
  lemma NormalizeExact(v: Vec3, m: MathLib)
    requires InverseSqrtAt(m, Dot(v, v))
    ensures Dot(Normalize(v, m.inverseSqrt), Normalize(v, m.inverseSqrt)) == 1.0
  {
    DotScaleSelf(v, m.inverseSqrt(Dot(v, v)));
  }

  /** The spherical direction of the angles is a unit vector when cos^2 + sin^2 = 1. */
  lemma RawFrontUnit(yaw: real, pitch: real, m: MathLib)
    requires PythagoreanAt(m, m.radians(yaw)) && PythagoreanAt(m, m.radians(pitch))
    ensures Dot(RawFront(yaw, pitch, m), RawFront(yaw, pitch, m)) == 1.0
  {
    var v := RawFront(yaw, pitch, m);
    var cy, sy := m.cos(m.radians(yaw)), m.sin(m.radians(yaw));
    var cp, sp := m.cos(m.radians(pitch)), m.sin(m.radians(pitch));
    SphericalUnit(cy, sy, cp, sp);
    assert Dot(v, v) == (cy * cp) * (cy * cp) + sp * sp + (sy * cp) * (sy * cp);
  }

  /** With a trigonometry that satisfies cos^2 + sin^2 = 1, an exact inverse
      square root, and a front vector not parallel to world-up, the basis is
      orthonormal. */
  lemma BasisOrthonormal(yaw: real, pitch: real, worldUp: Vec3, m: MathLib)
    requires PythagoreanAt(m, m.radians(yaw)) && PythagoreanAt(m, m.radians(pitch))
    requires InverseSqrtAt(m, 1.0)
    requires RightWellDefined(yaw, pitch, worldUp, m)
    ensures var b := CameraBasis(yaw, pitch, worldUp, m);
      Dot(b.front, b.front) == 1.0 && Dot(b.right, b.right) == 1.0 && Dot(b.up, b.up) == 1.0
    ensures var b := CameraBasis(yaw, pitch, worldUp, m);
      Dot(b.right, b.front) == 0.0 && Dot(b.up, b.front) == 0.0 && Dot(b.up, b.right) == 0.0
  {
    var b := CameraBasis(yaw, pitch, worldUp, m);
    BasisOrthogonal(yaw, pitch, worldUp, m);
    RawFrontUnit(yaw, pitch, m);
    NormalizeExact(RawFront(yaw, pitch, m), m);
    NormalizeExact(Cross(b.front, worldUp), m);
    var u := Cross(b.right, b.front);
    Lagrange(b.right, b.front);
    assert Dot(u, u) == 1.0;
    NormalizeExact(u, m);
  }

  /** With the default angles, and a math library exact at those angles,
      the camera faces -Z. */
  lemma DefaultFront(worldUp: Vec3, m: MathLib)
    requires m.cos(m.radians(YAW)) == 0.0 && m.sin(m.radians(YAW)) == -1.0
    requires m.cos(m.radians(PITCH)) == 1.0 && m.sin(m.radians(PITCH)) == 0.0
    requires m.inverseSqrt(1.0) == 1.0
    ensures CameraBasis(YAW, PITCH, worldUp, m).front == Vec3(0.0, 0.0, -1.0)
  {
    var v := RawFront(YAW, PITCH, m);
    assert v == Vec3(0.0, 0.0, -1.0);
    NormalizeUnit(v, m.inverseSqrt);
  }

  /** A camera built by the second constructor at the default angles, with a
      math library exact at those angles, faces -Z. */
  method DefaultCamera(m: MathLib) returns (c: Camera)
    requires m.cos(m.radians(YAW)) == 0.0 && m.sin(m.radians(YAW)) == -1.0
    requires m.cos(m.radians(PITCH)) == 1.0 && m.sin(m.radians(PITCH)) == 0.0
    requires m.inverseSqrt(1.0) == 1.0
    ensures c.Front == Vec3(0.0, 0.0, -1.0)
    ensures c.Position == Zero && c.WorldUp == Vec3(0.0, 1.0, 0.0)
  {
    c := new Camera.FromComponents(m, 0.0, 0.0, 0.0, 0.0, 1.0, 0.0, YAW, PITCH);
    DefaultFront(c.WorldUp, m);
  }

  /** Normalising a unit vector is the identity when the inverse square root of 1 is 1. */
  lemma NormalizeUnit(v: Vec3, inverseSqrt: real -> real)
    requires Dot(v, v) == 1.0 && inverseSqrt(1.0) == 1.0
    ensures Normalize(v, inverseSqrt) == v
  {
  }

  // ---------------------------------------------------------------------------
  // Keyboard events

  /** One keyboard event stays on the front axis for Forward/Backward and on
      the right axis for Left/Right, and covers `velocity` times that axis:
      positively for Forward/Right, negatively for Backward/Left. */
  lemma DisplacementAlongAxis(direction: Movement, front: Vec3, right: Vec3, velocity: real)
    ensures var r := Displacement(direction, front, right, velocity);
      && ((direction == Forward || direction == Backward) ==> Cross(r, front) == Zero)
      && ((direction == Left || direction == Right) ==> Cross(r, right) == Zero)
      && (direction == Forward ==> Dot(r, front) == velocity * Dot(front, front))
      && (direction == Backward ==> Dot(r, front) == -velocity * Dot(front, front))
      && (direction == Left ==> Dot(r, right) == -velocity * Dot(right, right))
      && (direction == Right ==> Dot(r, right) == velocity * Dot(right, right))
  {
    match direction
    case Forward =>
      CrossScaleSelf(front, velocity);
      DotScaleLeft(front, velocity, front);
    case Backward =>
      assert Displacement(direction, front, right, velocity) == Scale(front, -velocity);
      CrossScaleSelf(front, -velocity);
      DotScaleLeft(front, -velocity, front);
    case Left =>
      assert Displacement(direction, front, right, velocity) == Scale(right, -velocity);
      CrossScaleSelf(right, -velocity);
      DotScaleLeft(right, -velocity, right);
    case Right =>
      CrossScaleSelf(right, velocity);
      DotScaleLeft(right, velocity, right);
  }

  /** The direction that undoes a keyboard movement. */
  function Opposite(d: Movement): Movement {
    match d
    case Forward => Backward
    case Backward => Forward
    case Left => Right
    case Right => Left
  }

  /** Over the reals, moving one way and then the opposite way with the same
      velocity (and an unchanged basis) returns to the starting position. */
  lemma MoveUndone(p: Vec3, d: Movement, front: Vec3, right: Vec3, velocity: real)
    ensures Add(Add(p, Displacement(d, front, right, velocity)), Displacement(Opposite(d), front, right, velocity)) == p
  {
  }

  datatype KeyEvent = KeyEvent(direction: Movement, deltaTime: real)

  /** How far processKeyboard moves the camera for one event. */
  function EventDisplacement(e: KeyEvent, front: Vec3, right: Vec3, speed: real): Vec3 {
    Displacement(e.direction, front, right, speed * e.deltaTime)
  }

  /** The position after processKeyboard is applied to each event in turn;
      processKeyboard never changes the basis or the speed. */
  function MoveAll(p: Vec3, events: seq<KeyEvent>, front: Vec3, right: Vec3, speed: real): Vec3
    decreases |events|
  {
    if |events| == 0 then p
    else MoveAll(Add(p, EventDisplacement(events[0], front, right, speed)), events[1..], front, right, speed)
  }

  /** The sum of the displacements of a sequence of keyboard events. */
  function TotalDisplacement(events: seq<KeyEvent>, front: Vec3, right: Vec3, speed: real): Vec3
    decreases |events|
  {
    if |events| == 0 then Zero
    else Add(EventDisplacement(events[0], front, right, speed), TotalDisplacement(events[1..], front, right, speed))
  }

  /** Keyboard movements compose additively: the final position is the start
      plus the sum of the individual displacements (diagonal movement is not
      normalised). */
  lemma {:induction false} MoveAllIsTotal(p: Vec3, events: seq<KeyEvent>, front: Vec3, right: Vec3, speed: real)
    ensures MoveAll(p, events, front, right, speed) == Add(p, TotalDisplacement(events, front, right, speed))
    decreases |events|
  {
    if |events| == 0 {
      assert Add(p, Zero) == p;
    } else {
      var d := EventDisplacement(events[0], front, right, speed);
      var rest := TotalDisplacement(events[1..], front, right, speed);
      MoveAllIsTotal(Add(p, d), events[1..], front, right, speed);
      AddAssoc(p, d, rest);
    }
  }

  lemma {:induction false} TotalDisplacementAppend(e1: seq<KeyEvent>, e2: seq<KeyEvent>, front: Vec3, right: Vec3, speed: real)
    ensures TotalDisplacement(e1 + e2, front, right, speed)
              == Add(TotalDisplacement(e1, front, right, speed), TotalDisplacement(e2, front, right, speed))
    decreases |e1|
  {
    var t2 := TotalDisplacement(e2, front, right, speed);
    if |e1| == 0 {
      assert e1 + e2 == e2;
      assert Add(Zero, t2) == t2;
    } else {
      assert (e1 + e2)[0] == e1[0];
      assert (e1 + e2)[1..] == e1[1..] + e2;
      TotalDisplacementAppend(e1[1..], e2, front, right, speed);
      AddAssoc(EventDisplacement(e1[0], front, right, speed), TotalDisplacement(e1[1..], front, right, speed), t2);
    }
  }

  lemma AddSwap(a: Vec3, b: Vec3, c: Vec3)
    ensures Add(a, Add(b, c)) == Add(b, Add(a, c))
  {
  }

  /** Taking one event out of a sequence takes its displacement out of the sum. */
  lemma TotalRemove(s: seq<KeyEvent>, j: nat, front: Vec3, right: Vec3, speed: real)
    requires j < |s|
    ensures TotalDisplacement(s, front, right, speed)
      == Add(TotalDisplacement([s[j]], front, right, speed), TotalDisplacement(s[..j] + s[j + 1..], front, right, speed))
  {
    var before, x, after := s[..j], s[j], s[j + 1..];
    assert s == before + ([x] + after);
    TotalDisplacementAppend(before, [x] + after, front, right, speed);
    TotalDisplacementAppend([x], after, front, right, speed);
    TotalDisplacementAppend(before, after, front, right, speed);
    AddSwap(TotalDisplacement([x], front, right, speed), TotalDisplacement(before, front, right, speed),
            TotalDisplacement(after, front, right, speed));
  }

  /** Taking the first event out of one sequence and a matching event out of
      a permutation of it leaves two permutations of each other. */
  lemma RemoveMatching(e1: seq<KeyEvent>, e2: seq<KeyEvent>, j: nat)
    requires multiset(e1) == multiset(e2) && 0 < |e1| && j < |e2| && e2[j] == e1[0]
    ensures multiset(e1[1..]) == multiset(e2[..j] + e2[j + 1..])
  {
    var before, after := e2[..j], e2[j + 1..];
    assert e2 == before + [e2[j]] + after;
    assert multiset(e2) == multiset(before) + multiset{e2[j]} + multiset(after);
    assert multiset(before + after) == multiset(before) + multiset(after);
    assert e1 == [e1[0]] + e1[1..];
    assert multiset(e1) == multiset{e1[0]} + multiset(e1[1..]);
    forall y
      ensures multiset(e1[1..])[y] == multiset(before + after)[y]
    {
      assert multiset(e1)[y] == multiset{e1[0]}[y] + multiset(e1[1..])[y];
      assert multiset(e2)[y] == multiset(before)[y] + multiset{e2[j]}[y] + multiset(after)[y];
    }
  }

  /** The summed displacement depends only on which events occur, not on their order. */
  lemma {:induction false} TotalPermute(e1: seq<KeyEvent>, e2: seq<KeyEvent>, front: Vec3, right: Vec3, speed: real)
    requires multiset(e1) == multiset(e2)
    ensures TotalDisplacement(e1, front, right, speed) == TotalDisplacement(e2, front, right, speed)
    decreases |e1|
  {
    if |e1| == 0 {
      assert |multiset(e2)| == 0;
      assert e2 == [];
    } else {
      var x := e1[0];
      assert x in multiset(e1);
      var j :| 0 <= j < |e2| && e2[j] == x;
      assert e1[..0] + e1[1..] == e1[1..];
      RemoveMatching(e1, e2, j);
      TotalPermute(e1[1..], e2[..j] + e2[j + 1..], front, right, speed);
      TotalRemove(e1, 0, front, right, speed);
      TotalRemove(e2, j, front, right, speed);
    }
  }

  /** The order of the keyboard events processed in a frame does not change
      the final position: any reordering of the same events ends in the same place. */
  lemma MovesCommute(p: Vec3, e1: seq<KeyEvent>, e2: seq<KeyEvent>, front: Vec3, right: Vec3, speed: real)
    requires multiset(e1) == multiset(e2)
    ensures MoveAll(p, e1, front, right, speed) == MoveAll(p, e2, front, right, speed)
  {
    MoveAllIsTotal(p, e1, front, right, speed);
    MoveAllIsTotal(p, e2, front, right, speed);
    TotalPermute(e1, e2, front, right, speed);
  }

  /** processKeyboard leaves every field the basis depends on alone, so a
      current basis stays current. */
  method KeyboardKeepsBasis(c: Camera, direction: Movement, deltaTime: real)
    requires c.BasisCurrent()
    modifies c
    ensures c.BasisCurrent()
  {
    c.ProcessKeyboard(direction, deltaTime);
  }

  /** One processKeyboard call for a key event moves a camera by the event's
      displacement; the basis and the speed stay as they were. */
  method Press(c: Camera, e: KeyEvent)
    modifies c
    ensures c.Position == Add(old(c.Position), EventDisplacement(e, c.Front, c.Right, c.movementSpeed))
    ensures c.Front == old(c.Front) && c.Right == old(c.Right) && c.movementSpeed == old(c.movementSpeed)
  {
    var d, dt := e.direction, e.deltaTime;
    ghost var p0, front, right, speed := c.Position, c.Front, c.Right, c.movementSpeed;
    c.ProcessKeyboard(d, dt);
    assert c.Position == Add(p0, Displacement(d, front, right, speed * dt));
    EventDisplacementOf(e, d, dt, front, right, speed);
  }

  /** processKeyboard applied to each event in turn moves a camera to
      MoveAll of its position; the basis and the speed stay as they were. */
  method PressAll(c: Camera, events: seq<KeyEvent>)
    modifies c
    ensures c.Position == MoveAll(old(c.Position), events, c.Front, c.Right, c.movementSpeed)
    ensures c.Front == old(c.Front) && c.Right == old(c.Right) && c.movementSpeed == old(c.movementSpeed)
  {
    ghost var target := MoveAll(c.Position, events, c.Front, c.Right, c.movementSpeed);
    var rest := events;
    while |rest| > 0
      invariant c.Front == old(c.Front) && c.Right == old(c.Right) && c.movementSpeed == old(c.movementSpeed)
      invariant MoveAll(c.Position, rest, c.Front, c.Right, c.movementSpeed) == target
      decreases |rest|
    {
      Press(c, rest[0]);
      rest := rest[1..];
    }
  }

  lemma EventDisplacementOf(e: KeyEvent, d: Movement, dt: real, front: Vec3, right: Vec3, speed: real)
    requires e.direction == d && e.deltaTime == dt
    ensures EventDisplacement(e, front, right, speed) == Displacement(d, front, right, speed * dt)
  {
  }

  lemma DotAddSelf(a: Vec3, b: Vec3)
    ensures Dot(Add(a, b), Add(a, b)) == Dot(a, a) + 2.0 * Dot(a, b) + Dot(b, b)
  {
  }

  /** Forward and Right together cover sqrt(2) times the distance of one of
      them alone: the combined movement is not normalised. */
  lemma DiagonalUnnormalized(front: Vec3, right: Vec3, velocity: real)
    requires Dot(front, front) == 1.0 && Dot(right, right) == 1.0 && Dot(front, right) == 0.0
    ensures var d := Add(Displacement(Forward, front, right, velocity), Displacement(Right, front, right, velocity));
      Dot(d, d) == 2.0 * velocity * velocity
  {
    var w := Add(front, right);
    var d := Add(Displacement(Forward, front, right, velocity), Displacement(Right, front, right, velocity));
    ScaleDistributes(front, right, velocity);
    assert d == Scale(w, velocity);
    DotScaleSelf(w, velocity);
    DotAddSelf(front, right);
    assert Dot(w, w) == 2.0;
  }

  lemma ScaleDistributes(a: Vec3, b: Vec3, k: real)
    ensures Add(Scale(a, k), Scale(b, k)) == Scale(Add(a, b), k)
  {
  }

  /** Two calls on a camera: Forward then Backward with the same time step
      leave the position where it was. */
  method ForwardThenBackward(c: Camera, deltaTime: real)
    modifies c
    ensures c.Position == old(c.Position)
  {
    c.ProcessKeyboard(Forward, deltaTime);
    c.ProcessKeyboard(Backward, deltaTime);
    MoveUndone(old(c.Position), Forward, c.Front, c.Right, c.movementSpeed * deltaTime);
  }

  /** Two calls on a camera: Left then Right with the same time step leave
      the position where it was. */
  method LeftThenRight(c: Camera, deltaTime: real)
    modifies c
    ensures c.Position == old(c.Position)
  {
    c.ProcessKeyboard(Left, deltaTime);
    c.ProcessKeyboard(Right, deltaTime);
    MoveUndone(old(c.Position), Left, c.Front, c.Right, c.movementSpeed * deltaTime);
  }

  // ---------------------------------------------------------------------------
  // Scroll events

  /** The zoom after processMouseScroll is applied to each offset in turn. */
  function ZoomAfter(zoom: real, offsets: seq<real>): real
    decreases |offsets|
  {
    if |offsets| == 0 then zoom else ZoomAfter(ScrolledZoom(zoom, offsets[0]), offsets[1..])
  }

  /** processMouseScroll applied to each offset in turn sets a camera's zoom
      to ZoomAfter of the old zoom. */
  method ScrollAll(c: Camera, offsets: seq<real>)
    modifies c
    ensures c.Zoom == ZoomAfter(old(c.Zoom), offsets)
  {
    ghost var target := ZoomAfter(c.Zoom, offsets);
    var i := 0;
    while i < |offsets|
      invariant 0 <= i <= |offsets|
      invariant ZoomAfter(c.Zoom, offsets[i..]) == target
    {
      assert offsets[i..][1..] == offsets[i + 1..];
      c.ProcessMouseScroll(offsets[i]);
      i := i + 1;
    }
    assert offsets[i..] == [];
  }

  /** After at least one scroll event the zoom is in range, whatever it was
      before (Zoom is public and may have been set out of range). */
  lemma {:induction false} ZoomAfterInRange(zoom: real, offsets: seq<real>)
    requires |offsets| > 0
    ensures MIN_ZOOM <= ZoomAfter(zoom, offsets) <= MAX_ZOOM
    decreases |offsets|
  {
    if |offsets| > 1 {
      ZoomAfterInRange(ScrolledZoom(zoom, offsets[0]), offsets[1..]);
    }
  }

  /** Scrolling repeatedly by at least the width of the range drives the zoom
      to exactly MIN_ZOOM and keeps it there. */
  lemma {:induction false} ZoomDrivenToMin(zoom: real, offsets: seq<real>)
    requires zoom <= MAX_ZOOM && |offsets| > 0
    requires forall i :: 0 <= i < |offsets| ==> offsets[i] >= MAX_ZOOM - MIN_ZOOM
    ensures ZoomAfter(zoom, offsets) == MIN_ZOOM
    decreases |offsets|
  {
    if |offsets| > 1 {
      ZoomDrivenToMin(ScrolledZoom(zoom, offsets[0]), offsets[1..]);
    }
  }

  /** Scrolling repeatedly by at most minus the width of the range drives the
      zoom to exactly MAX_ZOOM and keeps it there. */
  lemma {:induction false} ZoomDrivenToMax(zoom: real, offsets: seq<real>)
    requires zoom >= MIN_ZOOM && |offsets| > 0
    requires forall i :: 0 <= i < |offsets| ==> offsets[i] <= MIN_ZOOM - MAX_ZOOM
    ensures ZoomAfter(zoom, offsets) == MAX_ZOOM
    decreases |offsets|
  {
    if |offsets| > 1 {
      ZoomDrivenToMax(ScrolledZoom(zoom, offsets[0]), offsets[1..]);
    }
  }

  // ---------------------------------------------------------------------------
  // Mouse-movement events

  datatype MouseEvent = MouseEvent(xoffset: real, yoffset: real)

  /** The angles after processMouseMovement is applied to each event in turn. */
  function LookAll(a: Angles, events: seq<MouseEvent>, sensitivity: real, constrainPitch: GLboolean): Angles
    decreases |events|
  {
    if |events| == 0 then a
    else LookAll(Look(a, events[0].xoffset, events[0].yoffset, sensitivity, constrainPitch),
                 events[1..], sensitivity, constrainPitch)
  }

  /** processMouseMovement applied to each event in turn sets a camera's
      angles to LookAll of the old ones, and its basis to theirs. */
  method MoveMouseAll(c: Camera, events: seq<MouseEvent>, constrainPitch: GLboolean)
    modifies c
    ensures Angles(c.Yaw, c.Pitch) == LookAll(Angles(old(c.Yaw), old(c.Pitch)), events, c.mouseSensitivity, constrainPitch)
    ensures c.mouseSensitivity == old(c.mouseSensitivity) && c.Position == old(c.Position)
    ensures old(c.BasisCurrent()) ==> c.BasisCurrent()
  {
    ghost var target := LookAll(Angles(c.Yaw, c.Pitch), events, c.mouseSensitivity, constrainPitch);
    var i := 0;
    while i < |events|
      invariant 0 <= i <= |events|
      invariant c.mouseSensitivity == old(c.mouseSensitivity) && c.Position == old(c.Position)
      invariant old(c.BasisCurrent()) ==> c.BasisCurrent()
      invariant LookAll(Angles(c.Yaw, c.Pitch), events[i..], c.mouseSensitivity, constrainPitch) == target
    {
      assert events[i..][1..] == events[i + 1..];
      c.ProcessMouseMovement(events[i].xoffset, events[i].yoffset, constrainPitch);
      i := i + 1;
    }
    assert events[i..] == [];
  }

  function SumX(events: seq<MouseEvent>): real
    decreases |events|
  {
    if |events| == 0 then 0.0 else events[0].xoffset + SumX(events[1..])
  }

  function SumY(events: seq<MouseEvent>): real
    decreases |events|
  {
    if |events| == 0 then 0.0 else events[0].yoffset + SumY(events[1..])
  }

  /** Yaw is the start plus the scaled sum of all horizontal offsets, with no
      bound and no wrapping. */
  lemma {:induction false} YawAccumulates(a: Angles, events: seq<MouseEvent>, sensitivity: real, constrainPitch: GLboolean)
    ensures LookAll(a, events, sensitivity, constrainPitch).yaw == a.yaw + SumX(events) * sensitivity
    decreases |events|
  {
    if |events| > 0 {
      var e := events[0];
      YawAccumulates(Look(a, e.xoffset, e.yoffset, sensitivity, constrainPitch), events[1..], sensitivity, constrainPitch);
      assert (e.xoffset + SumX(events[1..])) * sensitivity == e.xoffset * sensitivity + SumX(events[1..]) * sensitivity;
    }
  }

  /** With the constraint off, pitch is the start plus the scaled sum of all
      vertical offsets. */
  lemma {:induction false} PitchAccumulatesUnconstrained(a: Angles, events: seq<MouseEvent>, sensitivity: real)
    ensures LookAll(a, events, sensitivity, 0).pitch == a.pitch + SumY(events) * sensitivity
    decreases |events|
  {
    if |events| > 0 {
      var e := events[0];
      PitchAccumulatesUnconstrained(Look(a, e.xoffset, e.yoffset, sensitivity, 0), events[1..], sensitivity);
      assert (e.yoffset + SumY(events[1..])) * sensitivity == e.yoffset * sensitivity + SumY(events[1..]) * sensitivity;
    }
  }

  /** With the constraint on, pitch stays within the limit after any non-empty
      sequence of events, whatever the starting pitch. */
  lemma {:induction false} PitchStaysBounded(a: Angles, events: seq<MouseEvent>, sensitivity: real, constrainPitch: GLboolean)
    requires constrainPitch != 0 && |events| > 0
    ensures -PITCH_LIMIT <= LookAll(a, events, sensitivity, constrainPitch).pitch <= PITCH_LIMIT
    decreases |events|
  {
    if |events| > 1 {
      var e := events[0];
      PitchStaysBounded(Look(a, e.xoffset, e.yoffset, sensitivity, constrainPitch), events[1..], sensitivity, constrainPitch);
    }
  }
}

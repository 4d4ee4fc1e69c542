/** A free-fly camera that turns keyboard, mouse and scroll input into a pose
    (position, Euler angles and the derived front/right/up basis) and a zoom. */
module Camera {
  import opened Vectors

  /** The keyboard directions the camera understands. */
  datatype Movement = Forward | Backward | Left | Right

  // Default camera values
  const YAW: real := -90.0
  const PITCH: real := 0.0
  const SPEED: real := 2.5
  const SENSITIVITY: real := 0.1
  const ZOOM: real := 45.0

  /** The bounds processMouseScroll keeps Zoom in, and the pitch limit of a constrained mouse update. */
  const MIN_ZOOM: real := 1.0
  const MAX_ZOOM: real := 45.0
  const PITCH_LIMIT: real := 89.0

  /** OpenGL's GLboolean: an unsigned byte, where any non-zero value means true. */
  newtype GLboolean = b: int | 0 <= b < 256

  /** The math library routines updateCameraVectors calls: degrees to radians,
      cosine, sine, and the inverse square root inside glm::normalize. */
  datatype MathLib = MathLib(
    radians: real -> real,
    cos: real -> real,
    sin: real -> real,
    inverseSqrt: real -> real)

  /** The camera's local basis. */
  datatype Basis = Basis(front: Vec3, right: Vec3, up: Vec3)

  /** The direction updateCameraVectors derives from the Euler angles, before normalisation. */
  function RawFront(yaw: real, pitch: real, m: MathLib): Vec3 {
    var ry := m.radians(yaw);
    var rp := m.radians(pitch);
    Vec3(m.cos(ry) * m.cos(rp), m.sin(rp), m.sin(ry) * m.cos(rp))
  }

  /** The basis updateCameraVectors computes from the angles and the world-up vector. */
  function CameraBasis(yaw: real, pitch: real, worldUp: Vec3, m: MathLib): Basis {
    BasisFromFront(Normalize(RawFront(yaw, pitch, m), m.inverseSqrt), worldUp, m.inverseSqrt)
  }

  /** Right from front and world-up, then up from right and front. */
  function BasisFromFront(front: Vec3, worldUp: Vec3, inverseSqrt: real -> real): Basis {
    var right := Normalize(Cross(front, worldUp), inverseSqrt);
    var up := Normalize(Cross(right, front), inverseSqrt);
    Basis(front, right, up)
  }

  /** The zoom after one scroll event: the old zoom minus the offset, clamped
      into [MIN_ZOOM, MAX_ZOOM] rather than rejected. */
  function ScrolledZoom(zoom: real, yoffset: real): (r: real)
    ensures MIN_ZOOM <= r <= MAX_ZOOM
    ensures MIN_ZOOM <= zoom - yoffset <= MAX_ZOOM ==> r == zoom - yoffset
    ensures zoom - yoffset < MIN_ZOOM ==> r == MIN_ZOOM
    ensures zoom - yoffset > MAX_ZOOM ==> r == MAX_ZOOM
  {
    var z := zoom - yoffset;
    if z < MIN_ZOOM then MIN_ZOOM else if z > MAX_ZOOM then MAX_ZOOM else z
  }

  /** The Euler angles of a camera. */
  datatype Angles = Angles(yaw: real, pitch: real)

  /** The angles after one mouse-movement event. Yaw accumulates without bound;
      pitch accumulates and, when constrained, is truncated to the nearer of
      -PITCH_LIMIT and PITCH_LIMIT instead of being rejected. */
  function Look(a: Angles, xoffset: real, yoffset: real, sensitivity: real, constrainPitch: GLboolean): (r: Angles)
    ensures r.yaw == a.yaw + xoffset * sensitivity
    ensures constrainPitch == 0 ==> r.pitch == a.pitch + yoffset * sensitivity
    ensures constrainPitch != 0 ==> -PITCH_LIMIT <= r.pitch <= PITCH_LIMIT
    ensures (constrainPitch != 0 && -PITCH_LIMIT <= a.pitch + yoffset * sensitivity <= PITCH_LIMIT)
              ==> r.pitch == a.pitch + yoffset * sensitivity
    ensures constrainPitch != 0 && a.pitch + yoffset * sensitivity > PITCH_LIMIT ==> r.pitch == PITCH_LIMIT
    ensures constrainPitch != 0 && a.pitch + yoffset * sensitivity < -PITCH_LIMIT ==> r.pitch == -PITCH_LIMIT
  {
    var pitch := a.pitch + yoffset * sensitivity;
    var clamped :=
      if constrainPitch == 0 then pitch
      else if pitch > PITCH_LIMIT then PITCH_LIMIT
      else if pitch < -PITCH_LIMIT then -PITCH_LIMIT
      else pitch;
    Angles(a.yaw + xoffset * sensitivity, clamped)
  }

  /** How far one keyboard event moves the camera: `velocity` along the front
      vector for Forward/Backward and along the right vector for Left/Right. */
  function Displacement(direction: Movement, front: Vec3, right: Vec3, velocity: real): Vec3 {
    match direction
    case Forward => Scale(front, velocity)
    case Backward => Neg(Scale(front, velocity))
    case Left => Neg(Scale(right, velocity))
    case Right => Scale(right, velocity)
  }

  class Camera {
    var Zoom: real
    var Position: Vec3
    var Front: Vec3
    var Up: Vec3
    var Right: Vec3
    var WorldUp: Vec3
    var Yaw: real
    var Pitch: real
    var movementSpeed: real
    var mouseSensitivity: real
    /** The math library the basis is computed with. */
    const math: MathLib

    /** Front, Right and Up are the basis of the current angles and world-up vector. */
    ghost predicate BasisCurrent()
      reads this
    {
      var b := CameraBasis(Yaw, Pitch, WorldUp, math);
      Front == b.front && Right == b.right && Up == b.up
    }

    /** The first constructor. Its `yaw` argument is never used: Yaw is not
        initialised, so nothing is promised about it, and the basis is that of
        whatever value Yaw holds. The pitch is stored unclamped. */
    constructor (math: MathLib, position: Vec3 := Vec3(0.0, 0.0, 0.0), up: Vec3 := Vec3(0.0, 1.0, 0.0),
                 yaw: real := YAW, pitch: real := PITCH)
      ensures this.math == math
      ensures Position == position && WorldUp == up && Pitch == pitch
      ensures Zoom == ZOOM && movementSpeed == SPEED && mouseSensitivity == SENSITIVITY
      ensures BasisCurrent()
    {
      Front := Vec3(0.0, 0.0, -1.0);
      movementSpeed := SPEED;
      mouseSensitivity := SENSITIVITY;
      Zoom := ZOOM;
      Position := position;
      WorldUp := up;
      Pitch := pitch;
      this.math := math;
      new;
      UpdateCameraVectors();
    }

    /** The second constructor, from scalar components. It stores the yaw and
        the pitch exactly as given, unclamped. */
    constructor FromComponents(math: MathLib, posX: real, posY: real, posZ: real,
                               upX: real, upY: real, upZ: real, yaw: real, pitch: real)
      ensures this.math == math
      ensures Position == Vec3(posX, posY, posZ) && WorldUp == Vec3(upX, upY, upZ)
      ensures Yaw == yaw && Pitch == pitch
      ensures Zoom == ZOOM && movementSpeed == SPEED && mouseSensitivity == SENSITIVITY
      ensures BasisCurrent()
    {
      Front := Vec3(0.0, 0.0, -1.0);
      movementSpeed := SPEED;
      mouseSensitivity := SENSITIVITY;
      Zoom := ZOOM;
      this.math := math;
      new;
      Position := Vec3(posX, posY, posZ);
      WorldUp := Vec3(upX, upY, upZ);
      Yaw := yaw;
      Pitch := pitch;
      UpdateCameraVectors();
    }

    /** Moves the position by `movementSpeed * deltaTime` along the front or
        right vector; nothing else changes, so the basis stays current
        (KeyboardKeepsBasis). */
    method ProcessKeyboard(direction: Movement, deltaTime: real)
      modifies this
      ensures Position == Add(old(Position), Displacement(direction, Front, Right, movementSpeed * deltaTime))
      ensures Zoom == old(Zoom) && Yaw == old(Yaw) && Pitch == old(Pitch)
      ensures Front == old(Front) && Right == old(Right) && Up == old(Up) && WorldUp == old(WorldUp)
      ensures movementSpeed == old(movementSpeed) && mouseSensitivity == old(mouseSensitivity)
    {
      var velocity := movementSpeed * deltaTime;
      if direction == Movement.Forward {
        Position := Add(Position, Scale(Front, velocity));
      }
      if direction == Movement.Backward {
        Position := Sub(Position, Scale(Front, velocity));
      }
      if direction == Movement.Left {
        Position := Sub(Position, Scale(Right, velocity));
      }
      if direction == Movement.Right {
        Position := Add(Position, Scale(Right, velocity));
      }
    }

    /** Adds the scaled offsets to yaw and pitch, optionally clamps the pitch,
        and recomputes the basis; position, zoom and world-up are untouched. */
    method ProcessMouseMovement(xoffset: real, yoffset: real, constrainPitch: GLboolean := 1)
      modifies this
      ensures Angles(Yaw, Pitch) == Look(Angles(old(Yaw), old(Pitch)), xoffset, yoffset, mouseSensitivity, constrainPitch)
      ensures BasisCurrent()
      ensures Position == old(Position) && Zoom == old(Zoom) && WorldUp == old(WorldUp)
      ensures movementSpeed == old(movementSpeed) && mouseSensitivity == old(mouseSensitivity)
    {
      ghost var target := Look(Angles(Yaw, Pitch), xoffset, yoffset, mouseSensitivity, constrainPitch);
      var x := xoffset * mouseSensitivity;
      var y := yoffset * mouseSensitivity;

      Yaw := Yaw + x;
      Pitch := Pitch + y;

      if constrainPitch != 0 {
        if Pitch > PITCH_LIMIT {
          Pitch := PITCH_LIMIT;
        }
        if Pitch < -PITCH_LIMIT {
          Pitch := -PITCH_LIMIT;
        }
      }
      assert Angles(Yaw, Pitch) == target;

      UpdateCameraVectors();
    }

    /** Subtracts the offset from the zoom and clamps it into [MIN_ZOOM, MAX_ZOOM];
        nothing else changes. */
    method ProcessMouseScroll(yoffset: real)
      modifies this
      ensures Zoom == ScrolledZoom(old(Zoom), yoffset)
      ensures MIN_ZOOM <= Zoom <= MAX_ZOOM
      ensures Position == old(Position) && Yaw == old(Yaw) && Pitch == old(Pitch)
      ensures Front == old(Front) && Right == old(Right) && Up == old(Up) && WorldUp == old(WorldUp)
      ensures movementSpeed == old(movementSpeed) && mouseSensitivity == old(mouseSensitivity)
      ensures old(BasisCurrent()) ==> BasisCurrent()
    {
      Zoom := Zoom - yoffset;
      if Zoom < MIN_ZOOM {
        Zoom := MIN_ZOOM;
      }
      if Zoom > MAX_ZOOM {
        Zoom := MAX_ZOOM;
      }
    }

    /** Recomputes Front, then Right from Front and WorldUp, then Up from Right and Front. */
    method UpdateCameraVectors()
      modifies this`Front, this`Right, this`Up
      ensures BasisCurrent()
    {
      var front := RawFront(Yaw, Pitch, math);
      Front := Normalize(front, math.inverseSqrt);
      Right := Normalize(Cross(Front, WorldUp), math.inverseSqrt);
      Up := Normalize(Cross(Right, Front), math.inverseSqrt);
    }
  }
}

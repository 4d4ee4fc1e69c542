# Free-fly camera: a Dafny model

This project models the `Camera` class of an OpenGL tutorial renderer (`src/Camera.h`). The class holds a pose:

- a position;
- Euler angles (yaw and pitch);
- a derived front/right/up basis;
- a world-up reference;
- a movement speed, a mouse sensitivity and a zoom.

Three input handlers change this pose in place:

- `processKeyboard` moves the position along the front or right vector.
- `processMouseMovement` accumulates scaled offsets into yaw and pitch. It clamps the pitch when asked to, then recomputes the basis.
- `processMouseScroll` subtracts from the zoom and clamps it into [1, 45].

The model has three modules:

- `Vectors` (`vectors.dfy`): the glm vector arithmetic the camera uses (addition, scaling, dot and cross products, `normalize`), over the reals.
- `Camera` (`camera.dfy`): the default constants and the `Camera` class. Its fields, constructors and input handlers follow the source one for one, plus a `math` field holding the math library; `getViewMatrix` is left out. Beside the class are the pure functions that specify its updates: `ScrolledZoom`, `Look`, `Displacement`, and `CameraBasis` (with `RawFront` and `BasisFromFront`) for `updateCameraVectors`.
- `CameraProperties` (`camera_properties.dfy`): what the update rules imply. The computed basis is orthogonal, and orthonormal under stated hypotheses about the math library. The module also proves what a sequence of keyboard, mouse or scroll events adds up to, and ties each of those folds to a loop that calls the camera's own handler on every event.

`updateCameraVectors` is modelled structurally:

- front is the normalised spherical direction of the angles;
- right is `normalize(cross(front, worldUp))`;
- up is `normalize(cross(right, front))`;
- `glm::normalize(v)` is `v * inversesqrt(dot(v, v))`.

The routines it calls from the math library are `radians`, `cos`, `sin` and `inversesqrt`. They are supplied as a `MathLib` value. Each camera holds one in a constant field, set at construction. Dafny has no trigonometry, so those four routines are parameters rather than definitions. Everything built on top of them is exact real arithmetic.

Points where the code does less than its constants and comments suggest:

- The default yaw of -90 degrees (src/Camera.h:19, 49) suggests that a default-constructed camera faces -Z. But the first constructor's initialiser list never assigns `Yaw` (src/Camera.h:51-57), so its `yaw` argument is ignored and `Yaw` is left indeterminate (or 0 for a camera with static storage, which is zero-initialised first). The model's arbitrary `Yaw` covers both cases. The model's first constructor promises nothing about `Yaw`. "Faces -Z" is proved about the basis function at the default angles (`DefaultFront`), and about a camera built by the second constructor, which does store `yaw` (`DefaultCamera`).
- The basis is meant to be unit length: the comment at src/Camera.h:126 says the vectors are normalised so that movement does not slow down when looking up or down. Over the reals, orthogonality holds for any math library (`BasisOrthogonal`). Unit length needs three things: the trigonometry satisfies cos² + sin² = 1, the inverse square root is exact, and front is not parallel to world-up (`BasisOrthonormal`). In the parallel case the cross product is zero and normalising it is undefined.
- Neither constructor clamps the pitch (src/Camera.h:57, 65). A pitch in [-89, 89] is therefore a postcondition of a constrained mouse update, not a class invariant. Likewise, `Zoom` is a public field (src/Camera.h:28), so the [1, 45] bound is a postcondition of `processMouseScroll` only.

## Model

| member | source | states |
|---|---|---|
| `Camera.ScrolledZoom` | src/Camera.h:108-114 | the new zoom is always in [1, 45]; it is exactly `zoom - yoffset` when that lies in [1, 45], and otherwise the nearer bound (clamped, not rejected) |
| `Camera.Look` | src/Camera.h:88-101 | yaw becomes `yaw + xoffset * sensitivity` with no bound; with the constraint off, pitch becomes exactly `pitch + yoffset * sensitivity`; with it on, pitch ends in [-89, 89], equals the accumulated value when that is in range, and an overshoot is truncated to exactly 89 or -89 |
| `Camera.Camera.constructor` | src/Camera.h:47-59 | stores position, world-up and pitch unclamped; zoom 45, speed 2.5, sensitivity 0.1 (the defaults of lines 19-23); front, right and up are the basis of the current angles; promises nothing about yaw, which this constructor never assigns |
| `Camera.Camera.FromComponents` | src/Camera.h:61-67 | position and world-up from their components; yaw and pitch stored exactly as given, unclamped; zoom 45, speed 2.5, sensitivity 0.1; basis current |
| `Camera.Camera.ProcessKeyboard` | src/Camera.h:75-85 | position moves by the direction's displacement at velocity `movementSpeed * deltaTime`: plus or minus `Front * velocity` for forward/backward, plus or minus `Right * velocity` for right/left; every other field is unchanged |
| `Camera.Camera.ProcessMouseMovement` | src/Camera.h:88-105 | yaw and pitch become `Look` of the old angles; front, right and up are the basis of the new angles; position, zoom, world-up, speed and sensitivity are unchanged |
| `Camera.Camera.ProcessMouseScroll` | src/Camera.h:108-114 | zoom becomes `ScrolledZoom` of the old zoom, so it lies in [1, 45]; position, angles, basis, world-up, speed and sensitivity are unchanged |
| `Camera.Camera.UpdateCameraVectors` | src/Camera.h:118-128 | front, right and up become the basis that `CameraBasis` gives for the current yaw, pitch and world-up |
| `CameraProperties.RawFrontUnit` | src/Camera.h:120-123 | the spherical direction computed from yaw and pitch already has length 1 when the trigonometry satisfies cos² + sin² = 1 |
| `CameraProperties.BasisOrthogonal` | src/Camera.h:124-127 | over the reals the computed right is orthogonal to front, and up is orthogonal to both, whatever the math library returns |
| `CameraProperties.BasisOrthonormal` | src/Camera.h:120-127 | if cos² + sin² = 1 at both angles, the inverse square root is exact, and front is not parallel to world-up, then front, right and up are unit vectors and mutually orthogonal |
| `CameraProperties.DefaultFront` | src/Camera.h:119-124 | at the default yaw -90 and pitch 0, with a math library exact at those angles, the computed front is (0, 0, -1) |
| `CameraProperties.DefaultCamera` | src/Camera.h:61-67 | a camera built by the second constructor at yaw -90 and pitch 0, at the origin with world-up (0, 1, 0), faces (0, 0, -1), given a math library exact at those angles |
| `CameraProperties.DisplacementAlongAxis` | src/Camera.h:77-84 | one keyboard event moves along front for forward/backward and along right for left/right (the move is parallel to that axis), by `velocity` times the axis: positively for forward/right, negatively for backward/left |
| `CameraProperties.KeyboardKeepsBasis` | src/Camera.h:75-85 | processKeyboard leaves a current basis current, since it changes nothing the basis depends on |
| `CameraProperties.MoveUndone` | src/Camera.h:77-84 | over the reals, a move followed by the opposite move with the same velocity and basis returns to the starting position |
| `CameraProperties.ForwardThenBackward` | src/Camera.h:78-80 | on a camera, `ProcessKeyboard(Forward, dt)` and then `ProcessKeyboard(Backward, dt)` leave the position unchanged |
| `CameraProperties.LeftThenRight` | src/Camera.h:81-84 | on a camera, `ProcessKeyboard(Left, dt)` and then `ProcessKeyboard(Right, dt)` leave the position unchanged |
| `CameraProperties.Press` | src/Camera.h:75-85 | one processKeyboard call for a key event moves the camera by that event's displacement and leaves front, right and speed alone |
| `CameraProperties.PressAll` | src/Camera.h:75-85 | calling processKeyboard on each event of a sequence moves the camera to `MoveAll` of its old position, so the fold lemmas below are about the camera itself |
| `CameraProperties.MoveAllIsTotal` | src/Camera.h:75-85 | a sequence of keyboard events moves the position by the sum of the individual displacements: movements compose additively |
| `CameraProperties.TotalDisplacementAppend` | src/Camera.h:75-85 | the displacement of two concatenated event sequences is the sum of their displacements |
| `CameraProperties.TotalPermute` | src/Camera.h:75-85 | two event sequences holding the same events (equal multisets), in any order, have the same summed displacement |
| `CameraProperties.MovesCommute` | src/Camera.h:75-85 | any reordering of the keyboard events processed in a frame (same multiset of events) ends at the same final position |
| `CameraProperties.DiagonalUnnormalized` | src/Camera.h:78-84 | with a unit, orthogonal front and right, forward plus right moves sqrt(2) times as far as one of them alone: diagonal movement is not normalised |
| `CameraProperties.ScrollAll` | src/Camera.h:108-114 | calling processMouseScroll on each offset of a sequence sets the camera's zoom to `ZoomAfter` of its old zoom |
| `CameraProperties.ZoomAfterInRange` | src/Camera.h:108-114 | after any non-empty sequence of scroll events the zoom is in [1, 45], whatever it was before |
| `CameraProperties.ZoomDrivenToMin` | src/Camera.h:109-111 | repeated scrolls of at least 44 (for example 100) drive a zoom of at most 45 to exactly 1 and keep it there |
| `CameraProperties.ZoomDrivenToMax` | src/Camera.h:112-113 | repeated scrolls of at most -44 (for example -100) drive a zoom of at least 1 to exactly 45 and keep it there |
| `CameraProperties.MoveMouseAll` | src/Camera.h:88-105 | calling processMouseMovement on each event of a sequence sets the camera's angles to `LookAll` of its old angles, leaves position and sensitivity alone, and keeps a current basis current |
| `CameraProperties.YawAccumulates` | src/Camera.h:89-92 | after a sequence of mouse events, yaw is the start plus the sensitivity times the sum of the horizontal offsets, with no bound or wrapping |
| `CameraProperties.PitchAccumulatesUnconstrained` | src/Camera.h:90-93 | with the constraint off, pitch after a sequence of mouse events is the start plus the sensitivity times the sum of the vertical offsets |
| `CameraProperties.PitchStaysBounded` | src/Camera.h:96-101 | with the constraint on, pitch is in [-89, 89] after any non-empty sequence of mouse events, whatever the starting pitch |

## Left out

- `getViewMatrix` (src/Camera.h:70-72) is a single call to the foreign `glm::lookAt`; the matrix it builds is not modelled.
- The numerics of `updateCameraVectors`: `glm::radians`, `cos`, `sin` and the inverse square root inside `glm::normalize` are parameters (`MathLib`) held by each camera. Their floating-point behaviour, and the orthonormality of the basis beyond the stated hypotheses, are not modelled.
- Floating-point precision: the source keeps `Yaw` and `Pitch` as `double` and everything else as `float` (so `0.1F` is not exactly 0.1). The model uses exact reals throughout, so rounding, NaN and infinity are not modelled. The keyboard round trips hold over the reals and may not hold exactly in `float`.
- Access control: `Position`, `Front`, `Up`, `Right`, `WorldUp`, `Yaw`, `Pitch`, `movementSpeed` and `mouseSensitivity` are private in the source, and so is `updateCameraVectors` (src/Camera.h:116-118), while Dafny class fields and methods are public. No member of the model writes those fields or calls `UpdateCameraVectors` from outside the class; a call from outside would only re-establish `BasisCurrent()`.
- The first constructor's uninitialised `Yaw` is modelled as an arbitrary real: indeterminate for automatic or dynamic storage, 0 for static storage. The undefined behaviour of reading an indeterminate `double` is outside the model.
- `src/Shader.h` is not part of this model. It only declares a GPU shader-program wrapper (file loading, compile and link, uniform upload through OpenGL) whose bodies are not in the source.

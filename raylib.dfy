/** The slice of raylib and raymath that the first-person controller uses: its vector and
    camera value types, the three vector operations it relies on exactly, `Clamp`, the
    angle constants, and the library calls whose results the controller only passes on. */
module Raylib {

  datatype Vector2 = Vector2(x: real, y: real)

  datatype Vector3 = Vector3(x: real, y: real, z: real)

  const Zero3: Vector3 := Vector3(0.0, 0.0, 0.0)

  /** `Camera3D`: eye position, the point it looks at, its up vector, vertical field of view
      in degrees, and the projection kind. */
  datatype Camera3D = Camera3D(position: Vector3, target: Vector3, up: Vector3, fovy: real, projection: int)

  /** The part of a camera that raylib's `UpdateCamera` moves. */
  datatype CameraPose = CameraPose(position: Vector3, target: Vector3, up: Vector3)

  /** `CAMERA_PERSPECTIVE` of raylib's `CameraProjection` enumeration. */
  const CameraPerspective: int := 0

  const PI: real := 3.14159265358979323846

  const DEG2RAD: real := PI / 180.0

  function Add(a: Vector3, b: Vector3): Vector3 {
    Vector3(a.x + b.x, a.y + b.y, a.z + b.z)
  }

  function Subtract(a: Vector3, b: Vector3): Vector3 {
    Vector3(a.x - b.x, a.y - b.y, a.z - b.z)
  }

  function Scale(v: Vector3, k: real): Vector3 {
    Vector3(v.x * k, v.y * k, v.z * k)
  }

  function PoseOf(c: Camera3D): CameraPose {
    CameraPose(c.position, c.target, c.up)
  }

  /** raymath's `Clamp`: first raise `value` to `min`, then lower the result to `max`.
      For a proper interval the result lies in it, and a value already inside is kept. */
  function Clamp(value: real, min: real, max: real): (r: real)
    ensures r == value || r == min || r == max
    ensures min <= max ==> min <= r <= max
    ensures min <= value <= max ==> r == value
    ensures value < min && min <= max ==> r == min
    ensures value > max ==> r == max
  {
    var raised := if value < min then min else value;
    if raised > max then max else raised
  }

  /** What the controller's raylib queries return in one frame: `IsKeyDown` for W, A, S, D,
      left shift and left control, `IsKeyPressed(KEY_SPACE)` (true only in the frame the key
      goes down), `GetFrameTime` (both calls of a frame read the same value) and
      `GetMouseDelta`. */
  datatype FrameInput = FrameInput(
    keyW: bool, keyA: bool, keyS: bool, keyD: bool,
    keyLeftShift: bool, keyLeftControl: bool,
    spacePressed: bool,
    frameTime: real,
    mouseDelta: Vector2)

  /** The floating-point and camera routines the controller calls but whose code is not
      modelled: the square root and trigonometry of the C library, raymath's
      `Vector3Normalize` and `Vector3CrossProduct`, and raylib's `UpdateCamera`, taken as
      an unknown map from the camera pose and camera mode to a new pose. Every property
      of the model holds whatever these functions are. */
  datatype Library = Library(
    sqrtf: real -> real,
    sinf: real -> real,
    cosf: real -> real,
    normalize: Vector3 -> Vector3,
    cross: (Vector3, Vector3) -> Vector3,
    updateCamera: (CameraPose, int) -> CameraPose)
}

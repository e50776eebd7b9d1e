/** The first-person player of src/main.c: its state, the state `InitPlayer` builds, and the
    frame update `UpdatePlayer`, first as a specification on values (`Locomote`, `Present`,
    `Step`) and then as the `Player` class whose `Update` method changes the fields one
    statement at a time as the C function does. */
module FirstPerson {
  import opened Raylib
  import opened Locomotion

  /** The fields of the C `Player` struct that `UpdatePlayer` only reads. */
  datatype Tuning = Tuning(
    baseFOV: real, sprintFOV: real, crouchFOV: real, fovSpeed: real,
    baseHeight: real, crouchHeight: real,
    moveSpeed: real, sprintSpeed: real, crouchSpeed: real,
    acc: real, g: real, jumpStrength: real,
    bobbingSpeed: real, bobbingAmount: real, swayAmount: real)

  /** The whole player as a value: the struct's fields plus the yaw and pitch that the C code
      keeps in function-local statics. */
  datatype PlayerState = PlayerState(
    camera: Camera3D,
    velocity: Vector3,
    isMoving: bool, isSprinting: bool, isCrouching: bool, isJumping: bool,
    tuning: Tuning,
    bobbingTime: real,
    yaw: real, pitch: real)

  /** Rate at which the eye height follows the standing or crouching height. */
  const CrouchBlendRate: real := 10.0

  /** The tuning values the properties below rely on: a real jump impulse, gravity that
      pulls down, and phase and smoothing rates that do not run backwards. */
  predicate Sane(t: Tuning) {
    t.jumpStrength > 0.0 && t.g >= 0.0 && t.acc >= 0.0 && t.fovSpeed >= 0.0 && t.bobbingSpeed >= 0.0
  }

  /** The player `InitPlayer` returns: eye at standing height looking down -z, at rest, not
      jumping, field of view at its walking value, yaw and pitch 0. */
  function InitialState(): (s: PlayerState)
    ensures Sane(s.tuning)
    ensures s.tuning.crouchFOV < s.tuning.baseFOV < s.tuning.sprintFOV
    ensures s.tuning.crouchSpeed < s.tuning.moveSpeed < s.tuning.sprintSpeed
    ensures s.tuning.crouchHeight < s.tuning.baseHeight == s.camera.position.y
    ensures s.camera.fovy == s.tuning.baseFOV
    ensures s.velocity == Zero3 && !s.isJumping && !s.isMoving && s.bobbingTime == 0.0
    ensures s.yaw == 0.0 && s.pitch == 0.0 && !s.isSprinting && !s.isCrouching
    ensures Subtract(s.camera.target, s.camera.position) == Vector3(0.0, 0.0, -4.0)
  {
    PlayerState(
      Camera3D(Vector3(0.0, 2.0, 4.0), Vector3(0.0, 2.0, 0.0), Vector3(0.0, 1.0, 0.0), 100.0, CameraPerspective),
      Zero3,
      false, false, false, false,
      Tuning(100.0, 110.0, 90.0, 5.0,
             2.0, 1.0,
             4.0, 7.0, 2.0,
             20.0, 20.0, 6.0,
             10.0, 0.03, 0.01),
      0.0,
      0.0, 0.0)
  }

  function WalkGait(t: Tuning): Gait { Gait(t.moveSpeed, t.baseFOV) }
  function SprintGait(t: Tuning): Gait { Gait(t.sprintSpeed, t.sprintFOV) }
  function CrouchGait(t: Tuning): Gait { Gait(t.crouchSpeed, t.crouchFOV) }

  /** The velocity the player steers toward: the local direction turned into the camera's
      horizontal plane (forward from the eye to the target, right from forward and up) and
      scaled by the gait speed. It is horizontal, and exactly zero for a zero direction. */
  function TargetVelocity(camera: Camera3D, dir: Vector3, speed: real, lib: Library): (v: Vector3)
    ensures v.y == 0.0
    ensures dir.x == 0.0 && dir.z == 0.0 ==> v == Zero3
  {
    var forward := lib.normalize(Subtract(camera.target, camera.position));
    var right := lib.normalize(lib.cross(forward, camera.up));
    Scale(WorldDirection(dir, forward, right), speed)
  }

  /** Gravity, then the jump step, then the ground test against the eye height before this
      frame's movement. */
  function VerticalStep(v: Vertical, positionY: real, jumpPressed: bool, isCrouching: bool, t: Tuning, dt: real): (r: Vertical)
    // a jump started this frame survives this frame's ground test
    ensures t.jumpStrength > 0.0 && JumpFires(jumpPressed, v.isJumping, isCrouching) ==> r == Vertical(t.jumpStrength, true)
    // only the jump edge starts a jump, and only the ground ends one
    ensures r.isJumping ==> v.isJumping || JumpFires(jumpPressed, v.isJumping, isCrouching)
    ensures v.isJumping && !r.isJumping ==> positionY <= t.baseHeight && r.velocityY == 0.0
    // in the air, or still rising, without a new jump, gravity alone acts
    ensures !JumpFires(jumpPressed, v.isJumping, isCrouching) &&
            (positionY > t.baseHeight || v.velocityY - t.g * dt > 0.0) ==>
              r == Vertical(v.velocityY - t.g * dt, v.isJumping)
    // at or below standing height and not rising, the player stands still vertically
    ensures !JumpFires(jumpPressed, v.isJumping, isCrouching) &&
            positionY <= t.baseHeight && v.velocityY - t.g * dt <= 0.0 ==>
              r == Vertical(0.0, false)
  {
    var falling := Vertical(v.velocityY - t.g * dt, v.isJumping);
    GroundCheck(Jump(falling, jumpPressed, isCrouching, t.jumpStrength), positionY, t.baseHeight)
  }

  /** The eye after moving by `velocity` for `dt`; when not jumping its height then blends
      toward the crouching or standing height. */
  function MoveEye(eye: Vector3, velocity: Vector3, isJumping: bool, isCrouching: bool, t: Tuning, dt: real): Vector3 {
    var moved := Add(eye, Scale(velocity, dt));
    var crouchY := if isCrouching then t.crouchHeight else t.baseHeight;
    if isJumping then moved else moved.(y := SmoothToward(moved.y, crouchY, CrouchBlendRate, dt))
  }

  /** Moving the eye: x and z follow the velocity exactly; y does too while jumping.
      Otherwise the gap between the moved height and the crouching or standing height shrinks
      by the factor `1 - 10 * dt`, so the height ends between the two when `10 * dt` is at
      most 1, strictly closer to the crouching or standing height unless already there. */
  lemma {:induction false} MoveEyeBlend(eye: Vector3, velocity: Vector3, isJumping: bool, isCrouching: bool, t: Tuning, dt: real)
    ensures MoveEye(eye, velocity, isJumping, isCrouching, t, dt).x == eye.x + velocity.x * dt
    ensures MoveEye(eye, velocity, isJumping, isCrouching, t, dt).z == eye.z + velocity.z * dt
    ensures isJumping ==> MoveEye(eye, velocity, isJumping, isCrouching, t, dt).y == eye.y + velocity.y * dt
    ensures !isJumping && 0.0 <= CrouchBlendRate * dt <= 1.0 ==>
              Between(MoveEye(eye, velocity, isJumping, isCrouching, t, dt).y,
                      eye.y + velocity.y * dt,
                      if isCrouching then t.crouchHeight else t.baseHeight)
    ensures !isJumping ==>
              var crouchY := if isCrouching then t.crouchHeight else t.baseHeight;
              crouchY - MoveEye(eye, velocity, isJumping, isCrouching, t, dt).y ==
                (crouchY - (eye.y + velocity.y * dt)) * (1.0 - CrouchBlendRate * dt)
    ensures !isJumping && 0.0 < CrouchBlendRate * dt <= 1.0 ==>
              var crouchY := if isCrouching then t.crouchHeight else t.baseHeight;
              eye.y + velocity.y * dt != crouchY ==>
                Abs(crouchY - MoveEye(eye, velocity, isJumping, isCrouching, t, dt).y) < Abs(crouchY - (eye.y + velocity.y * dt))
  {
    SmoothTowardConverges(eye.y + velocity.y * dt, if isCrouching then t.crouchHeight else t.baseHeight, CrouchBlendRate, dt);
  }

  /** Lines 125-183 of a frame: the modifier flags follow their keys, the horizontal velocity
      is smoothed toward the target velocity of the frame's keys and gait, and the vertical
      velocity and jumping flag go through gravity, jump and ground test. The camera, the bob
      phase and the view angles are not touched. */
  function Drive(s: PlayerState, input: FrameInput, lib: Library): (d: PlayerState)
    ensures d.tuning == s.tuning && d.camera == s.camera && d.isMoving == s.isMoving
    ensures d.bobbingTime == s.bobbingTime && d.yaw == s.yaw && d.pitch == s.pitch
    ensures d.isSprinting == input.keyLeftShift && d.isCrouching == input.keyLeftControl
    ensures Vertical(d.velocity.y, d.isJumping) ==
              VerticalStep(Vertical(s.velocity.y, s.isJumping), s.camera.position.y,
                           input.spacePressed, input.keyLeftControl, s.tuning, input.frameTime)
  {
    var t := s.tuning;
    var dt := input.frameTime;
    var dir := NormalizeFlat(RawDirection(input.keyW, input.keyA, input.keyS, input.keyD), lib.sqrtf);
    var gait := SelectGait(input.keyLeftShift, input.keyLeftControl, WalkGait(t), SprintGait(t), CrouchGait(t));
    var targetVelocity := TargetVelocity(s.camera, dir, gait.speed, lib);
    var vertical := VerticalStep(Vertical(s.velocity.y, s.isJumping), s.camera.position.y,
                                 input.spacePressed, input.keyLeftControl, t, dt);
    s.(velocity := Vector3(SmoothToward(s.velocity.x, targetVelocity.x, t.acc, dt),
                           vertical.velocityY,
                           SmoothToward(s.velocity.z, targetVelocity.z, t.acc, dt)),
       isSprinting := input.keyLeftShift,
       isCrouching := input.keyLeftControl,
       isJumping := vertical.isJumping)
  }

  /** Lines 185-201 of a frame, after `Drive`: the field of view is smoothed toward the
      gait's target, the eye moves by the velocity and, when not jumping, blends toward the
      crouching or standing height, and the moving flag is set from the movement keys. */
  function Settle(d: PlayerState, input: FrameInput): (m: PlayerState)
    ensures m.tuning == d.tuning && m.velocity == d.velocity && m.bobbingTime == d.bobbingTime
    ensures m.yaw == d.yaw && m.pitch == d.pitch
    ensures m.isSprinting == d.isSprinting && m.isCrouching == d.isCrouching && m.isJumping == d.isJumping
    ensures m.camera.target == d.camera.target && m.camera.up == d.camera.up
    ensures m.camera.projection == d.camera.projection
    ensures m.isMoving <==> input.keyW || input.keyA || input.keyS || input.keyD
  {
    var t := d.tuning;
    var dt := input.frameTime;
    var fov := SelectGait(input.keyLeftShift, input.keyLeftControl, WalkGait(t), SprintGait(t), CrouchGait(t)).fov;
    d.(camera := d.camera.(fovy := SmoothToward(d.camera.fovy, fov, t.fovSpeed, dt),
                           position := MoveEye(d.camera.position, d.velocity, d.isJumping, d.isCrouching, t, dt)),
       isMoving := input.keyW || input.keyA || input.keyS || input.keyD)
  }

  /** The locomotion half of a frame, up to the library camera call: `Drive`, then `Settle`. */
  function Locomote(s: PlayerState, input: FrameInput, lib: Library): (m: PlayerState)
    ensures m.tuning == s.tuning && m.bobbingTime == s.bobbingTime
    ensures m.yaw == s.yaw && m.pitch == s.pitch
    ensures m.camera.target == s.camera.target && m.camera.up == s.camera.up
    ensures m.camera.projection == s.camera.projection
    ensures m.isSprinting == input.keyLeftShift && m.isCrouching == input.keyLeftControl
    ensures m.isMoving <==> input.keyW || input.keyA || input.keyS || input.keyD
    ensures Vertical(m.velocity.y, m.isJumping) ==
              VerticalStep(Vertical(s.velocity.y, s.isJumping), s.camera.position.y,
                           input.spacePressed, input.keyLeftControl, s.tuning, input.frameTime)
  {
    Settle(Drive(s, input, lib), input)
  }

  /** The field of view moves toward the target of the frame's keys: the crouching value
      whenever crouch is held, whatever the sprint key says; otherwise the sprinting value
      when sprint is held; otherwise the walking value. */
  lemma LocomoteFov(s: PlayerState, input: FrameInput, lib: Library)
    ensures var fovy := Locomote(s, input, lib).camera.fovy;
            var t := s.tuning;
            var dt := input.frameTime;
            (input.keyLeftControl ==> fovy == SmoothToward(s.camera.fovy, t.crouchFOV, t.fovSpeed, dt)) &&
            (input.keyLeftShift && !input.keyLeftControl ==> fovy == SmoothToward(s.camera.fovy, t.sprintFOV, t.fovSpeed, dt)) &&
            (!input.keyLeftShift && !input.keyLeftControl ==> fovy == SmoothToward(s.camera.fovy, t.baseFOV, t.fovSpeed, dt))
  {
  }

  /** The horizontal velocity is smoothed toward the key direction, turned into the camera's
      horizontal plane, at the speed of the frame's keys: the crouching speed whenever crouch
      is held, whatever the sprint key says; otherwise the sprinting speed when sprint is
      held; otherwise the walking speed. */
  lemma LocomoteSpeed(s: PlayerState, input: FrameInput, lib: Library)
    ensures var t := s.tuning;
            var dt := input.frameTime;
            var dir := NormalizeFlat(RawDirection(input.keyW, input.keyA, input.keyS, input.keyD), lib.sqrtf);
            var speed := if input.keyLeftControl then t.crouchSpeed
                         else if input.keyLeftShift then t.sprintSpeed
                         else t.moveSpeed;
            var target := TargetVelocity(s.camera, dir, speed, lib);
            var v := Locomote(s, input, lib).velocity;
            v.x == SmoothToward(s.velocity.x, target.x, t.acc, dt) &&
            v.z == SmoothToward(s.velocity.z, target.z, t.acc, dt)
  {
  }

  /** With no net key direction the target velocity is exactly zero, so each horizontal
      velocity component is scaled by `1 - acc * dt`. */
  lemma IdleDecay(s: PlayerState, input: FrameInput, lib: Library)
    requires RawDirection(input.keyW, input.keyA, input.keyS, input.keyD) == Zero3
    ensures Locomote(s, input, lib).velocity.x == s.velocity.x * (1.0 - s.tuning.acc * input.frameTime)
    ensures Locomote(s, input, lib).velocity.z == s.velocity.z * (1.0 - s.tuning.acc * input.frameTime)
  {
    var dir := NormalizeFlat(RawDirection(input.keyW, input.keyA, input.keyS, input.keyD), lib.sqrtf);
    assert dir.x == 0.0 && dir.z == 0.0;
    var k := s.tuning.acc * input.frameTime;
    assert SmoothToward(s.velocity.x, 0.0, s.tuning.acc, input.frameTime) == s.velocity.x * (1.0 - k);
    assert SmoothToward(s.velocity.z, 0.0, s.tuning.acc, input.frameTime) == s.velocity.z * (1.0 - k);
  }

  /** The eye after the bob step: the sway offset is added to x and the bob offset to y, but
      only when neither jumping nor crouching. */
  function BobEye(eye: Vector3, bob: Bob, isJumping: bool, isCrouching: bool): (r: Vector3)
    ensures r.z == eye.z
    ensures !isJumping && !isCrouching ==> r == Vector3(eye.x + bob.swayOffset, eye.y + bob.bobOffset, eye.z)
    ensures isJumping || isCrouching ==> r == eye
    ensures bob.bobOffset == 0.0 && bob.swayOffset == 0.0 ==> r == eye
  {
    if !isJumping && !isCrouching then eye.(x := eye.x + bob.swayOffset, y := eye.y + bob.bobOffset) else eye
  }

  /** The presentation half of a frame: the library camera step, head bob and sway, mouse
      look and the new look target. */
  function Present(m: PlayerState, input: FrameInput, lib: Library, cameraMode: int): (r: PlayerState)
    ensures r.tuning == m.tuning && r.velocity == m.velocity
    ensures r.isMoving == m.isMoving && r.isSprinting == m.isSprinting
    ensures r.isCrouching == m.isCrouching && r.isJumping == m.isJumping
    ensures r.camera.fovy == m.camera.fovy && r.camera.projection == m.camera.projection
    ensures r.camera.up == lib.updateCamera(PoseOf(m.camera), cameraMode).up
    // bob and sway never move the eye along z, and are not applied when idle, jumping or crouching
    ensures r.camera.position.z == lib.updateCamera(PoseOf(m.camera), cameraMode).position.z
    ensures !m.isMoving || m.isJumping || m.isCrouching ==>
              r.camera.position == lib.updateCamera(PoseOf(m.camera), cameraMode).position
    // a moving player on the ground who is not crouching gets the sway added to x and the bob to y
    ensures m.isMoving && !m.isJumping && !m.isCrouching ==>
              var eye := lib.updateCamera(PoseOf(m.camera), cameraMode).position;
              var bob := HeadBob(true, m.bobbingTime, input.frameTime, m.tuning.bobbingSpeed,
                                 m.tuning.bobbingAmount, m.tuning.swayAmount, lib.sinf);
              r.camera.position == Vector3(eye.x + bob.swayOffset, eye.y + bob.bobOffset, eye.z)
    // the bob phase is 0 when idle and advances by dt * bobbingSpeed while moving
    ensures !m.isMoving ==> r.bobbingTime == 0.0
    ensures m.isMoving ==> r.bobbingTime - m.bobbingTime == input.frameTime * m.tuning.bobbingSpeed
    // pitch is clamped to +-89 degrees for any mouse delta, yaw is not clamped
    ensures -MaxPitch <= r.pitch <= MaxPitch
    ensures Orientation(r.yaw, r.pitch) == Look(Orientation(m.yaw, m.pitch), input.mouseDelta)
    ensures r.yaw == m.yaw - input.mouseDelta.x * Sensitivity
    // the camera looks from its final position along the yaw/pitch direction
    ensures Subtract(r.camera.target, r.camera.position) == LookDirection(Orientation(r.yaw, r.pitch), lib)
  {
    var t := m.tuning;
    var pose := lib.updateCamera(PoseOf(m.camera), cameraMode);
    var bob := HeadBob(m.isMoving, m.bobbingTime, input.frameTime, t.bobbingSpeed, t.bobbingAmount, t.swayAmount, lib.sinf);
    var eye := BobEye(pose.position, bob, m.isJumping, m.isCrouching);
    var look := Look(Orientation(m.yaw, m.pitch), input.mouseDelta);
    m.(camera := m.camera.(position := eye, target := Add(eye, LookDirection(look, lib)), up := pose.up),
       bobbingTime := bob.time,
       yaw := look.yaw,
       pitch := look.pitch)
  }

  /** One call of `UpdatePlayer`. Whatever the input and whatever the library returns, the
      tuning is kept, pitch stays within +-89 degrees, an idle player has bob phase 0, a jump
      begins only on the jump edge, and one that begins is not undone in the same frame. */
  function Step(s: PlayerState, input: FrameInput, lib: Library, cameraMode: int): (r: PlayerState)
    ensures r.tuning == s.tuning
    ensures -MaxPitch <= r.pitch <= MaxPitch
    ensures !r.isMoving ==> r.bobbingTime == 0.0
    ensures r.isMoving && input.frameTime >= 0.0 && s.tuning.bobbingSpeed >= 0.0 ==> r.bobbingTime >= s.bobbingTime
    ensures r.isJumping ==> s.isJumping || JumpFires(input.spacePressed, s.isJumping, input.keyLeftControl)
    ensures s.tuning.jumpStrength > 0.0 && JumpFires(input.spacePressed, s.isJumping, input.keyLeftControl) ==>
              r.isJumping && r.velocity.y == s.tuning.jumpStrength
  {
    Present(Locomote(s, input, lib), input, lib, cameraMode)
  }

  /** Gravity: in the air, with no new jump, vertical speed strictly drops every frame
      of positive length. */
  lemma FallingAccelerates(s: PlayerState, input: FrameInput, lib: Library, cameraMode: int)
    requires s.tuning.g > 0.0 && input.frameTime > 0.0
    requires s.camera.position.y > s.tuning.baseHeight
    requires !JumpFires(input.spacePressed, s.isJumping, input.keyLeftControl)
    ensures Step(s, input, lib, cameraMode).velocity.y < s.velocity.y
  {
    assert s.tuning.g * input.frameTime > 0.0;
  }

  /** The jump key is edge-triggered and ignored in the air and while crouching: flipping
      the jump edge then changes nothing at all. */
  lemma JumpKeyIgnoredWhileAirborneOrCrouching(s: PlayerState, input: FrameInput, lib: Library, cameraMode: int)
    requires s.isJumping || input.keyLeftControl
    ensures Step(s, input, lib, cameraMode) == Step(s, input.(spacePressed := !input.spacePressed), lib, cameraMode)
  {
    var flipped := input.(spacePressed := !input.spacePressed);
    var v := Vertical(s.velocity.y, s.isJumping);
    var falling := Vertical(v.velocityY - s.tuning.g * input.frameTime, v.isJumping);
    assert Jump(falling, input.spacePressed, input.keyLeftControl, s.tuning.jumpStrength) == falling;
    assert Jump(falling, flipped.spacePressed, flipped.keyLeftControl, s.tuning.jumpStrength) == falling;
    assert VerticalStep(v, s.camera.position.y, input.spacePressed, input.keyLeftControl, s.tuning, input.frameTime) ==
           VerticalStep(v, s.camera.position.y, flipped.spacePressed, flipped.keyLeftControl, s.tuning, flipped.frameTime);
    var m := Locomote(s, input, lib);
    assert m == Locomote(s, flipped, lib);
    assert Present(m, input, lib, cameraMode) == Present(m, flipped, lib, cameraMode);
  }

  /** Horizontal steering never touches the vertical channel: two frames that differ only in
      the movement keys, the sprint key and the mouse leave the same vertical velocity and
      jumping flag. */
  lemma VerticalIgnoresSteering(s: PlayerState, a: FrameInput, b: FrameInput, lib: Library, cameraMode: int)
    requires a.keyLeftControl == b.keyLeftControl && a.spacePressed == b.spacePressed
    requires a.frameTime == b.frameTime
    ensures Step(s, a, lib, cameraMode).velocity.y == Step(s, b, lib, cameraMode).velocity.y
    ensures Step(s, a, lib, cameraMode).isJumping == Step(s, b, lib, cameraMode).isJumping
  {
  }

  /** Crouching and jumping are not exclusive in this code: the crouch flag follows the key
      every frame, so pressing it in mid-air leaves both flags set. */
  lemma CrouchWhileAirborne(s: PlayerState, input: FrameInput, lib: Library, cameraMode: int)
    requires s.isJumping && s.camera.position.y > s.tuning.baseHeight
    requires input.keyLeftControl
    ensures Step(s, input, lib, cameraMode).isJumping && Step(s, input, lib, cameraMode).isCrouching
  {
  }

  /** The key-direction block of `UpdatePlayer`: W and S move along z, A and D along x, each
      key adding or taking away one; the result is then divided by its length when that
      length is positive. */
  method InputDirection(input: FrameInput, sqrtf: real -> real) returns (dir: Vector3)
    ensures dir == NormalizeFlat(RawDirection(input.keyW, input.keyA, input.keyS, input.keyD), sqrtf)
  {
    dir := Zero3;
    if input.keyW {
      dir := dir.(z := dir.z + 1.0);
    }
    if input.keyS {
      dir := dir.(z := dir.z - 1.0);
    }
    if input.keyA {
      dir := dir.(x := dir.x - 1.0);
    }
    if input.keyD {
      dir := dir.(x := dir.x + 1.0);
    }

    var length := sqrtf(dir.x * dir.x + dir.z * dir.z);
    if length > 0.0 {
      dir := dir.(x := dir.x / length, z := dir.z / length);
    }
  }

  /** The C `Player` struct with `UpdatePlayer`'s static yaw and pitch moved into fields.
      The tuning fields are set once by `InitPlayer` and only read afterwards, so they are
      constant fields here. */
  class Player {
    var camera: Camera3D
    var velocity: Vector3
    var isMoving: bool
    var isSprinting: bool
    var isCrouching: bool
    var isJumping: bool

    const baseFOV: real
    const sprintFOV: real
    const crouchFOV: real
    const fovSpeed: real

    const baseHeight: real
    const crouchHeight: real

    const moveSpeed: real
    const sprintSpeed: real
    const crouchSpeed: real
    const acc: real
    const g: real
    const jumpStrength: real

    var bobbingTime: real
    const bobbingSpeed: real
    const bobbingAmount: real
    const swayAmount: real

    var yaw: real
    var pitch: real

    function Tuned(): Tuning {
      Tuning(baseFOV, sprintFOV, crouchFOV, fovSpeed, baseHeight, crouchHeight,
             moveSpeed, sprintSpeed, crouchSpeed, acc, g, jumpStrength,
             bobbingSpeed, bobbingAmount, swayAmount)
    }

    function State(): PlayerState
      reads this
    {
      PlayerState(camera, velocity, isMoving, isSprinting, isCrouching, isJumping,
                  Tuned(), bobbingTime, yaw, pitch)
    }

    /** `InitPlayer`: a zeroed player whose fields are then filled in one by one. */
    constructor InitPlayer()
      ensures State() == InitialState()
    {
      velocity := Zero3;
      isMoving, isSprinting, isCrouching, isJumping := false, false, false, false;
      yaw, pitch := 0.0, 0.0;
      camera := Camera3D(Vector3(0.0, 2.0, 4.0), Vector3(0.0, 2.0, 0.0), Vector3(0.0, 1.0, 0.0), 100.0, CameraPerspective);

      baseFOV := 100.0;
      sprintFOV := 110.0;
      crouchFOV := 90.0;
      fovSpeed := 5.0;

      baseHeight := 2.0;
      bobbingTime := 0.0;
      bobbingSpeed := 10.0;
      bobbingAmount := 0.03;
      swayAmount := 0.01;

      crouchHeight := 1.0;

      moveSpeed := 4.0;
      sprintSpeed := 7.0;
      crouchSpeed := 2.0;
      acc := 20.0;

      g := 20.0;
      jumpStrength := 6.0;
    }

    /** The speed block: walking values, replaced by the sprint values when sprinting, then
        by the crouch values when crouching. */
    method SpeedAndFov() returns (speed: real, fov: real)
      ensures Gait(speed, fov) == SelectGait(isSprinting, isCrouching, WalkGait(Tuned()), SprintGait(Tuned()), CrouchGait(Tuned()))
    {
      speed := moveSpeed;
      fov := baseFOV;
      if isSprinting {
        speed := sprintSpeed;
        fov := sprintFOV;
      }
      if isCrouching {
        speed := crouchSpeed;
        fov := crouchFOV;
      }
    }

    /** The steering block: rotate the direction into the camera's horizontal plane, scale by
        the speed, and smooth the horizontal velocity toward it; vertical velocity is kept. */
    method Accelerate(dir: Vector3, speed: real, dTime: real, lib: Library)
      modifies this`velocity
      ensures velocity == Vector3(SmoothToward(old(velocity.x), TargetVelocity(camera, dir, speed, lib).x, acc, dTime),
                                  old(velocity.y),
                                  SmoothToward(old(velocity.z), TargetVelocity(camera, dir, speed, lib).z, acc, dTime))
    {
      var forward := lib.normalize(Subtract(camera.target, camera.position));
      var right := lib.normalize(lib.cross(forward, camera.up));
      var worldDirection := Vector3(right.x * dir.x + forward.x * dir.z,
                                    0.0,
                                    right.z * dir.x + forward.z * dir.z);
      var targetVelocity := Scale(worldDirection, speed);
      assert targetVelocity.x == TargetVelocity(camera, dir, speed, lib).x;
      assert targetVelocity.z == TargetVelocity(camera, dir, speed, lib).z;

      velocity := velocity.(x := velocity.x + (targetVelocity.x - velocity.x) * acc * dTime);
      assert velocity.x == SmoothToward(old(velocity.x), targetVelocity.x, acc, dTime);
      velocity := velocity.(z := velocity.z + (targetVelocity.z - velocity.z) * acc * dTime);
      assert velocity.z == SmoothToward(old(velocity.z), targetVelocity.z, acc, dTime);
    }

    /** The gravity, jumping and ground-check blocks. */
    method FallJumpLand(jumpPressed: bool, dTime: real)
      modifies this`velocity, this`isJumping
      ensures Vertical(velocity.y, isJumping) ==
                VerticalStep(Vertical(old(velocity.y), old(isJumping)), camera.position.y, jumpPressed, isCrouching, Tuned(), dTime)
      ensures velocity.x == old(velocity.x) && velocity.z == old(velocity.z)
    {
      velocity := velocity.(y := velocity.y - g * dTime);
      ghost var jumped := Jump(Vertical(velocity.y, isJumping), jumpPressed, isCrouching, jumpStrength);

      if jumpPressed && !isJumping && !isCrouching {
        velocity := velocity.(y := jumpStrength);
        isJumping := true;
      }
      assert Vertical(velocity.y, isJumping) == jumped;

      if camera.position.y <= baseHeight && velocity.y <= 0.0 {
        isJumping := false;
        velocity := velocity.(y := 0.0);
      }
      assert Vertical(velocity.y, isJumping) == GroundCheck(jumped, camera.position.y, baseHeight);
    }

    /** The movement and crouch-height blocks. */
    method MoveCamera(dTime: real)
      modifies this`camera
      ensures camera == old(camera).(position := MoveEye(old(camera.position), velocity, isJumping, isCrouching, Tuned(), dTime))
    {
      camera := camera.(position := camera.position.(x := camera.position.x + velocity.x * dTime));
      camera := camera.(position := camera.position.(y := camera.position.y + velocity.y * dTime));
      camera := camera.(position := camera.position.(z := camera.position.z + velocity.z * dTime));

      var crouchY := if isCrouching then crouchHeight else baseHeight;
      if !isJumping {
        camera := camera.(position := camera.position.(y := camera.position.y + (crouchY - camera.position.y) * 10.0 * dTime));
      }
    }

    /** The head-bobbing blocks. */
    method HeadBobbing(dTime: real, sinf: real -> real)
      modifies this`bobbingTime, this`camera
      ensures var bob := HeadBob(isMoving, old(bobbingTime), dTime, bobbingSpeed, bobbingAmount, swayAmount, sinf);
              bobbingTime == bob.time && camera == old(camera).(position := BobEye(old(camera.position), bob, isJumping, isCrouching))
    {
      var bobOff := 0.0;
      var swayOff := 0.0;

      if isMoving {
        bobbingTime := bobbingTime + dTime * bobbingSpeed;
        bobOff := sinf(bobbingTime * 2.0) * bobbingAmount;
        swayOff := sinf(bobbingTime * 1.0) * swayAmount;
      } else {
        bobbingTime := 0.0;
      }

      if !isJumping && !isCrouching {
        camera := camera.(position := camera.position.(x := camera.position.x + swayOff));
        camera := camera.(position := camera.position.(y := camera.position.y + bobOff));
      }
    }

    /** The mouse-look block: yaw and pitch move against the mouse, pitch is clamped, and the
        camera target is put one look vector in front of the eye. */
    method MouseLook(mouseDelta: Vector2, lib: Library)
      modifies this`yaw, this`pitch, this`camera
      ensures Orientation(yaw, pitch) == Look(Orientation(old(yaw), old(pitch)), mouseDelta)
      ensures camera == old(camera).(target := Add(camera.position, LookDirection(Orientation(yaw, pitch), lib)))
    {
      var sens := 0.003;

      yaw := yaw - mouseDelta.x * sens;
      pitch := pitch - mouseDelta.y * sens;
      pitch := Clamp(pitch, -89.0 * DEG2RAD, 89.0 * DEG2RAD);

      var dirr := Vector3(lib.cosf(pitch) * lib.sinf(yaw),
                          lib.sinf(pitch),
                          lib.cosf(pitch) * lib.cosf(yaw));
      camera := camera.(target := Add(camera.position, dirr));
    }

    /** Lines 122-183 of `UpdatePlayer`: modifier flags, direction, gait, steering, gravity,
        jump and ground check. Returns the gait's target field of view for the next block. */
    method DriveBody(input: FrameInput, lib: Library) returns (fov: real)
      modifies this`velocity, this`isSprinting, this`isCrouching, this`isJumping
      ensures State() == Drive(old(State()), input, lib)
      ensures fov == SelectGait(input.keyLeftShift, input.keyLeftControl, WalkGait(Tuned()), SprintGait(Tuned()), CrouchGait(Tuned())).fov
    {
      ghost var s0 := State();
      var dTime := input.frameTime;

      isSprinting := input.keyLeftShift;
      isCrouching := input.keyLeftControl;

      var dir := InputDirection(input, lib.sqrtf);
      var speed;
      speed, fov := SpeedAndFov();
      Accelerate(dir, speed, dTime, lib);
      FallJumpLand(input.spacePressed, dTime);
      assert camera == s0.camera;
    }

    /** Lines 185-201 of `UpdatePlayer`: field of view, movement, crouch height and the
        moving flag, given the target field of view `DriveBody` chose. */
    method SettleBody(input: FrameInput, fov: real)
      requires fov == SelectGait(input.keyLeftShift, input.keyLeftControl, WalkGait(Tuned()), SprintGait(Tuned()), CrouchGait(Tuned())).fov
      modifies this`camera, this`isMoving
      ensures State() == Settle(old(State()), input)
    {
      var dTime := input.frameTime;
      camera := camera.(fovy := camera.fovy + (fov - camera.fovy) * fovSpeed * dTime);

      MoveCamera(dTime);

      isMoving := input.keyW || input.keyA || input.keyS || input.keyD;
    }

    /** The first half of `UpdatePlayer`, up to the library camera call. */
    method MoveBody(input: FrameInput, lib: Library)
      modifies this`camera, this`velocity, this`isMoving, this`isSprinting, this`isCrouching, this`isJumping
      ensures State() == Locomote(old(State()), input, lib)
    {
      var fov := DriveBody(input, lib);
      SettleBody(input, fov);
    }

    /** The second half of `UpdatePlayer`: the library camera call, head bobbing and mouse
        look. */
    method UpdateView(input: FrameInput, lib: Library, cameraMode: int)
      modifies this`camera, this`bobbingTime, this`yaw, this`pitch
      ensures State() == Present(old(State()), input, lib, cameraMode)
    {
      var pose := lib.updateCamera(PoseOf(camera), cameraMode);
      camera := camera.(position := pose.position, target := pose.target, up := pose.up);

      HeadBobbing(input.frameTime, lib.sinf);

      MouseLook(input.mouseDelta, lib);
    }

    /** `UpdatePlayer`: one frame. Only the per-frame fields change, and the new state is
        `Step` of the old one, so every property proved of `Step` holds of the object. */
    method Update(input: FrameInput, lib: Library, cameraMode: int)
      modifies this`camera, this`velocity, this`isMoving, this`isSprinting, this`isCrouching,
               this`isJumping, this`bobbingTime, this`yaw, this`pitch
      ensures State() == Step(old(State()), input, lib, cameraMode)
      ensures -MaxPitch <= pitch <= MaxPitch
    {
      MoveBody(input, lib);
      UpdateView(input, lib, cameraMode);
    }
  }
}

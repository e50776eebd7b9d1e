/** The separate steps of the per-frame player update, each a pure function of the values
    it reads: key direction, gait selection, world-space steering, exponential smoothing,
    the jump and ground state machine, head bob, and mouse look. */
module Locomotion {
  import opened Raylib

  function Abs(x: real): real {
    if x < 0.0 then -x else x
  }

  function Sign(x: real): int {
    if x > 0.0 then 1 else if x < 0.0 then -1 else 0
  }

  predicate Between(r: real, a: real, b: real) {
    (a <= r <= b) || (b <= r <= a)
  }

  /** Net input along one axis from a pair of opposing keys: the positive key adds one, the
      negative key takes one away, so holding both cancels. */
  function KeyAxis(positive: bool, negative: bool): (r: real)
    ensures r == 0.0 <==> positive == negative
    ensures r == 1.0 <==> positive && !negative
    ensures r == -1.0 <==> negative && !positive
  {
    var pushed := if positive then 1.0 else 0.0;
    if negative then pushed - 1.0 else pushed
  }

  /** The local move direction before normalisation: W/S drive z, D/A drive x, y stays 0.
      It is zero exactly when every pair of opposing keys agrees. */
  function RawDirection(w: bool, a: bool, s: bool, d: bool): (r: Vector3)
    ensures r.z == (if w then 1.0 else 0.0) - (if s then 1.0 else 0.0)
    ensures r.x == (if d then 1.0 else 0.0) - (if a then 1.0 else 0.0)
    ensures r.y == 0.0
    ensures r == Zero3 <==> w == s && a == d
    ensures -1.0 <= r.x <= 1.0 && -1.0 <= r.z <= 1.0
  {
    Vector3(KeyAxis(d, a), 0.0, KeyAxis(w, s))
  }

  /** Divides the horizontal components by `sqrtf(x*x + z*z)` only when that length is
      positive, so there is never a division by zero; whatever the square root returns, no
      component changes sign, a zero direction stays zero, and y is untouched. */
  function NormalizeFlat(dir: Vector3, sqrtf: real -> real): (r: Vector3)
    ensures r.y == dir.y
    ensures Sign(r.x) == Sign(dir.x) && Sign(r.z) == Sign(dir.z)
  {
    var length := sqrtf(dir.x * dir.x + dir.z * dir.z);
    if length > 0.0 then
      QuotientSign(dir.x, length);
      QuotientSign(dir.z, length);
      dir.(x := dir.x / length, z := dir.z / length)
    else
      dir
  }

  lemma QuotientSign(x: real, d: real)
    requires d > 0.0
    ensures Sign(x / d) == Sign(x)
  {
    if x > 0.0 {
      assert x / d > 0.0;
    } else if x < 0.0 {
      assert -x / d > 0.0;
      assert x / d == -(-x / d);
    }
  }

  /** Speed and target field of view of one way of moving. */
  datatype Gait = Gait(speed: real, fov: real)

  /** Starts from walking, lets a held sprint key replace it, then lets a held crouch key
      replace whatever was chosen: crouch beats sprint, sprint beats walk. */
  function SelectGait(isSprinting: bool, isCrouching: bool, walk: Gait, sprint: Gait, crouch: Gait): (r: Gait)
    ensures isCrouching ==> r == crouch
    ensures isSprinting && !isCrouching ==> r == sprint
    ensures !isSprinting && !isCrouching ==> r == walk
  {
    var chosen := if isSprinting then sprint else walk;
    if isCrouching then crouch else chosen
  }

  /** Rotates a local direction into the horizontal plane of the camera: x along `right`,
      z along `forward`, and the vertical component dropped. */
  function WorldDirection(dir: Vector3, forward: Vector3, right: Vector3): (r: Vector3)
    ensures r.y == 0.0
    ensures dir.x == 0.0 && dir.z == 0.0 ==> r == Zero3
  {
    Vector3(right.x * dir.x + forward.x * dir.z, 0.0, right.z * dir.x + forward.z * dir.z)
  }

  /** Exponential smoothing: move `current` toward `target` by the fraction `rate * dt` of
      the gap. */
  function SmoothToward(current: real, target: real, rate: real, dt: real): real {
    current + (target - current) * rate * dt
  }

  /** Each step closes the fraction `rate * dt` of the gap to the target. A value at its
      target stays there; when `rate * dt` lies in [0, 1] the smoothed value lies between the
      current value and the target and is no farther from the target, strictly closer when
      `rate * dt > 0` and the target is not yet reached; at `rate * dt == 1` it lands on the
      target. */
  lemma {:induction false} SmoothTowardConverges(current: real, target: real, rate: real, dt: real)
    ensures target - SmoothToward(current, target, rate, dt) == (target - current) * (1.0 - rate * dt)
    ensures current == target ==> SmoothToward(current, target, rate, dt) == current
    ensures 0.0 <= rate * dt <= 1.0 ==>
              Between(SmoothToward(current, target, rate, dt), current, target) &&
              Abs(target - SmoothToward(current, target, rate, dt)) <= Abs(target - current)
    ensures 0.0 < rate * dt <= 1.0 && current != target ==>
              Abs(target - SmoothToward(current, target, rate, dt)) < Abs(target - current)
    ensures rate * dt == 1.0 ==> SmoothToward(current, target, rate, dt) == target
  {
    var gap := target - current;
    var k := rate * dt;
    var r := SmoothToward(current, target, rate, dt);
    assert r == current + gap * k;
    assert target - r == gap * (1.0 - k);
    if 0.0 <= k <= 1.0 {
      FractionBounds(gap, k);
      FractionBounds(gap, 1.0 - k);
      if 0.0 < k && gap != 0.0 {
        StrictFraction(gap, 1.0 - k);
      }
    }
  }

  /** A fraction below 1 of a non-zero quantity is strictly smaller in size. */
  lemma StrictFraction(x: real, k: real)
    requires 0.0 <= k < 1.0 && x != 0.0
    ensures Abs(x * k) < Abs(x)
  {
    if x > 0.0 {
      assert x * k < x * 1.0;
    } else {
      assert x * k > x * 1.0;
    }
  }

  /** A fraction in [0, 1] of a quantity lies between 0 and that quantity. */
  lemma FractionBounds(x: real, k: real)
    requires 0.0 <= k <= 1.0
    ensures x >= 0.0 ==> 0.0 <= x * k <= x
    ensures x <= 0.0 ==> x <= x * k <= 0.0
  {
    if x >= 0.0 {
      assert x * k <= x * 1.0;
    } else {
      assert x * k >= x * 1.0;
    }
  }

  /** Vertical velocity and the jumping flag: the state of the jump/ground machine. */
  datatype Vertical = Vertical(velocityY: real, isJumping: bool)

  predicate JumpFires(jumpPressed: bool, isJumping: bool, isCrouching: bool) {
    jumpPressed && !isJumping && !isCrouching
  }

  /** The jump step. A jump starts only on the frame the key goes down while the player is
      neither jumping nor crouching; it sets the vertical velocity to `jumpStrength`. In every
      other case, including a press while already airborne, nothing changes. */
  function Jump(v: Vertical, jumpPressed: bool, isCrouching: bool, jumpStrength: real): (r: Vertical)
    ensures r.isJumping <==> v.isJumping || JumpFires(jumpPressed, v.isJumping, isCrouching)
    ensures r != v ==> JumpFires(jumpPressed, v.isJumping, isCrouching)
    ensures JumpFires(jumpPressed, v.isJumping, isCrouching) ==> r.velocityY == jumpStrength
    ensures v.isJumping || isCrouching || !jumpPressed ==> r == v
  {
    if jumpPressed && !v.isJumping && !isCrouching then Vertical(jumpStrength, true) else v
  }

  /** The ground test: at or below `baseHeight` and not rising, the player lands — vertical
      velocity becomes 0 and the jump ends. A rising player is never stopped, and landing
      only ever raises a downward velocity to 0. */
  function GroundCheck(v: Vertical, positionY: real, baseHeight: real): (r: Vertical)
    ensures positionY <= baseHeight && v.velocityY <= 0.0 ==> r == Vertical(0.0, false)
    ensures v.velocityY > 0.0 || positionY > baseHeight ==> r == v
    ensures r.velocityY >= v.velocityY
    ensures r.isJumping ==> v.isJumping
  {
    if positionY <= baseHeight && v.velocityY <= 0.0 then Vertical(0.0, false) else v
  }

  /** Head-bob phase and this frame's vertical bob and sideways sway offsets. */
  datatype Bob = Bob(time: real, bobOffset: real, swayOffset: real)

  /** While moving, the phase advances by `dt * bobbingSpeed` and the offsets are sines of
      twice and once the phase; when not moving, the phase snaps back to 0 and both offsets
      are 0. */
  function HeadBob(isMoving: bool, time: real, dt: real, bobbingSpeed: real, bobbingAmount: real,
                   swayAmount: real, sinf: real -> real): (r: Bob)
    ensures !isMoving ==> r == Bob(0.0, 0.0, 0.0)
    ensures isMoving ==> r.time - time == dt * bobbingSpeed
    ensures isMoving ==> r.bobOffset == sinf(r.time * 2.0) * bobbingAmount && r.swayOffset == sinf(r.time) * swayAmount
    ensures isMoving && dt >= 0.0 && bobbingSpeed >= 0.0 ==> r.time >= time
    ensures bobbingAmount == 0.0 ==> r.bobOffset == 0.0
    ensures swayAmount == 0.0 ==> r.swayOffset == 0.0
  {
    if isMoving then
      var phase := time + dt * bobbingSpeed;
      Bob(phase, sinf(phase * 2.0) * bobbingAmount, sinf(phase * 1.0) * swayAmount)
    else
      Bob(0.0, 0.0, 0.0)
  }

  /** Mouse sensitivity, radians per pixel of mouse movement. */
  const Sensitivity: real := 0.003

  /** Largest pitch magnitude, 89 degrees in radians. */
  const MaxPitch: real := 89.0 * DEG2RAD

  datatype Orientation = Orientation(yaw: real, pitch: real)

  /** Mouse look: yaw and pitch both move against the mouse delta; pitch is then clamped to
      [-89, 89] degrees whatever the delta, while yaw is never clamped. */
  function Look(o: Orientation, delta: Vector2): (r: Orientation)
    ensures -MaxPitch <= r.pitch <= MaxPitch
    ensures r.yaw == o.yaw - delta.x * Sensitivity
    ensures -MaxPitch <= o.pitch - delta.y * Sensitivity <= MaxPitch ==> r.pitch == o.pitch - delta.y * Sensitivity
    ensures o.pitch - delta.y * Sensitivity > MaxPitch ==> r.pitch == MaxPitch
    ensures o.pitch - delta.y * Sensitivity < -MaxPitch ==> r.pitch == -MaxPitch
  {
    var yaw := o.yaw - delta.x * Sensitivity;
    var pitch := o.pitch - delta.y * Sensitivity;
    Orientation(yaw, Clamp(pitch, -89.0 * DEG2RAD, 89.0 * DEG2RAD))
  }

  /** The unit look vector of a yaw and pitch, through the library's trigonometry. */
  function LookDirection(o: Orientation, lib: Library): Vector3 {
    Vector3(lib.cosf(o.pitch) * lib.sinf(o.yaw), lib.sinf(o.pitch), lib.cosf(o.pitch) * lib.cosf(o.yaw))
  }
}

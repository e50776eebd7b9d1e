# RaylibFirstPerson player controller in Dafny

A model of the first-person player in `src/main.c` of RaylibFirstPerson: the `Player`
struct, the starting state that `InitPlayer` fills in, and the per-frame update
`UpdatePlayer`. Every frame, that update does these things in order:

1. reads the sprint and crouch modifiers;
2. turns W/A/S/D into a local direction and normalises it only when it is non-zero;
3. picks the speed and target field of view (crouch beats sprint, sprint beats walk);
4. smooths the horizontal velocity toward the camera-relative target velocity;
5. applies gravity, then the edge-triggered jump, then the ground test
   `position.y <= baseHeight && velocity.y <= 0`;
6. smooths the field of view, moves the eye and blends it toward the crouching or standing
   height;
7. calls raylib's `UpdateCamera`;
8. advances or resets the head-bob phase and adds the bob and sway offsets;
9. turns the mouse delta into an unclamped yaw and a pitch clamped to ±89°, and aims the
   camera one look vector in front of the eye.

Files:

- `raylib.dfy` (module `Raylib`) holds the raylib/raymath value types the controller uses,
  with `Clamp`, the angle constants and the vector helpers. It also holds `FrameInput`, the
  values of the raylib queries for one frame (`IsKeyDown`, `IsKeyPressed(KEY_SPACE)`,
  `GetFrameTime`, `GetMouseDelta`). Finally it holds `Library`, the routines whose code is
  not modelled (`sqrtf`, `sinf`, `cosf`, `Vector3Normalize`, `Vector3CrossProduct`,
  `UpdateCamera`). These are passed in as function values, so every proved property holds
  whatever they compute.
- `locomotion.dfy` (module `Locomotion`) has one pure function per step of the update. Each
  carries the contract that the code gives that step.
- `player.dfy` (module `FirstPerson`) specifies one frame on values. `Drive` covers lines
  122-183 and `Settle` covers lines 185-201; together they make `Locomote`. `Present` covers
  lines 202-237, and `Step` is the whole frame. The file also has the `Player` class. Its
  fields mirror the C struct, with the function-local static `yaw`/`pitch` moved into fields.
  Its constructor `InitPlayer` sets the same field values as the C code (the repeated
  `baseHeight = 2.0f` of line 108 is written once), and its method `Update` makes the same
  assignments as `UpdatePlayer`, in the same order. `Update` is proved to leave the object in `Step` of its old state.
- `frames.dfy` (module `Frames`) runs `Step` over a sequence of frames, as the game loop does.
  It proves properties that hold across frames.

Both `GetFrameTime()` calls of a frame read the same `frameTime`. Arithmetic is on `real`.

## Behaviour of the code

These facts about `src/main.c` shape the model:

- There is no collision resolver. The only contact is the ground test at line 180, and the
  cubes in `main` are drawn but never tested.
- Crouching and jumping are not exclusive. `isCrouching` follows the crouch key every frame,
  so crouch can be held in mid-air (`CrouchWhileAirborne`). Crouching only blocks the start of
  a jump.
- The ground test reads the eye height from before this frame's movement.
- There is no separate sprint bob amount. Bob and sway are suppressed while crouching or
  jumping, and do not depend on sprinting.
- Gravity is applied every frame and then cancelled by the ground test. The eye moves by the
  velocity after gravity, jump and ground test.

## Model

| member | source | states |
|---|---|---|
| `Raylib.Clamp` | src/main.c:229 | for a proper interval, a value below it gives the lower bound, a value above it gives the upper bound, and a value inside is kept; the result always lies in the interval |
| `Locomotion.KeyAxis` | src/main.c:130-137 | one axis of key input is 0 exactly when both opposing keys agree, +1 when only the positive key is held, -1 when only the negative one is |
| `Locomotion.RawDirection` | src/main.c:129-137 | the raw direction has z = [W] - [S], x = [D] - [A] and y = 0, each in [-1, 1], and is zero exactly when W/S agree and A/D agree |
| `Locomotion.NormalizeFlat` | src/main.c:139-144 | normalisation divides only by a positive length: it never changes a component's sign, keeps a zero direction zero and leaves y alone, whatever `sqrtf` returns |
| `Locomotion.SelectGait` | src/main.c:146-156 | crouch held gives the crouch speed/FOV whatever sprint says; sprint alone gives the sprint values; neither gives the walking values |
| `Locomotion.WorldDirection` | src/main.c:158-163 | the world direction has vertical component 0 and is zero for a zero local direction |
| `Locomotion.SmoothTowardConverges` | src/main.c:166-168 | each smoothing step multiplies the gap to the target by `1 - rate*dt`; a converged value stays; with `rate*dt` in [0,1] the result lies between the value and its target, strictly closer when `rate*dt > 0` and not yet converged; with `rate*dt = 1` it lands on the target |
| `Locomotion.Jump` | src/main.c:173-177 | the jump fires only when the key was pressed this frame while not jumping and not crouching; it then sets `velocity.y = jumpStrength` and `isJumping`; otherwise nothing changes |
| `Locomotion.GroundCheck` | src/main.c:179-183 | at or below `baseHeight` and not rising, the vertical velocity becomes 0 and the jump ends; otherwise nothing changes; landing never lowers the vertical velocity and never starts a jump |
| `Locomotion.HeadBob` | src/main.c:204-215 | idle resets the phase to exactly 0 with zero offsets; while moving the phase advances by `dt * bobbingSpeed`, never runs backwards for non-negative inputs, and the bob and sway offsets are `sinf` of twice and once the new phase times their amounts |
| `Locomotion.Look` | src/main.c:222-229 | pitch ends in [-89°, 89°] for any mouse delta and is only changed by clamping; yaw moves by `-deltaX * 0.003` and is never clamped |
| `FirstPerson.InitialState` | src/main.c:87-120 | the initial player stands at eye height `baseHeight`, at rest, not jumping, with FOV at its walking value, yaw and pitch 0, and sprint and crouch flags clear; crouch < walk < sprint for both speed and FOV; the jump impulse is positive and gravity non-negative |
| `FirstPerson.TargetVelocity` | src/main.c:158-164 | the target velocity is horizontal, and exactly zero when the key direction is zero |
| `FirstPerson.VerticalStep` | src/main.c:170-183 | a jump started this frame survives the same frame's ground test; only the jump edge starts a jump and only the ground ends one; in the air gravity alone acts; on the ground a non-rising player stops vertically |
| `FirstPerson.MoveEyeBlend` | src/main.c:188-197 | the eye moves by velocity·dt; while jumping there is no crouch blending; otherwise the gap from the moved height to the crouch/standing height shrinks by the factor `1 - 10*dt`, so for `10*dt` in (0,1] the height ends strictly closer to that target, between it and the moved height |
| `FirstPerson.Drive` | src/main.c:122-183 | modifier flags follow their keys; the vertical channel follows gravity, jump and ground test; the camera, bob phase and view angles are untouched |
| `FirstPerson.Settle` | src/main.c:185-201 | only the camera's FOV and position and the moving flag change; the moving flag is set exactly when some movement key is held |
| `FirstPerson.Locomote` | src/main.c:121-201 | the locomotion half keeps tuning, bob phase, view angles and look target, sets the modifier and moving flags from the keys and the vertical state from `VerticalStep` |
| `FirstPerson.LocomoteFov` | src/main.c:147-186 | the FOV moves toward the crouch FOV when crouch is held whatever sprint says, else toward the sprint FOV when sprint is held, else toward the base FOV |
| `FirstPerson.LocomoteSpeed` | src/main.c:147-168 | the horizontal velocity is smoothed toward the key direction at crouch speed when crouch is held, else at sprint speed when sprint is held, else at walking speed |
| `FirstPerson.IdleDecay` | src/main.c:129-168 | with cancelling or no movement keys, each horizontal velocity component is scaled by `1 - acc*dt`, with no division by zero |
| `FirstPerson.BobEye` | src/main.c:216-220 | when neither jumping nor crouching the sway offset is added to x and the bob offset to y; while jumping or crouching the eye is unchanged; z never changes |
| `FirstPerson.Present` | src/main.c:202-237 | after `UpdateCamera`, an idle, jumping or crouching player keeps the camera position, and a moving player who is neither jumping nor crouching gets the `HeadBob` sway added to x and bob added to y; the bob phase is 0 when idle and advances by `dt*bobbingSpeed` when moving; yaw and pitch become `Look` of the old ones (pitch clamped to ±89°); the target is the final position plus the look vector |
| `FirstPerson.Step` | src/main.c:121-238 | one frame keeps the tuning, leaves pitch within ±89°, gives an idle player bob phase 0, starts a jump only on the edge, and never undoes in the same frame a jump it started |
| `FirstPerson.FallingAccelerates` | src/main.c:170-183 | above ground and with no new jump, vertical velocity strictly decreases in a frame of positive length |
| `FirstPerson.JumpKeyIgnoredWhileAirborneOrCrouching` | src/main.c:173-177 | while jumping or crouching, whether the jump key was pressed makes no difference to the frame at all |
| `FirstPerson.VerticalIgnoresSteering` | src/main.c:161-183 | movement keys, sprint and mouse never affect vertical velocity or the jumping flag |
| `FirstPerson.CrouchWhileAirborne` | src/main.c:124-183 | a player in the air who holds crouch is both jumping and crouching after the frame |
| `FirstPerson.InputDirection` | src/main.c:128-144 | the key-direction block computes the normalised raw direction of the four keys |
| `FirstPerson.Player.InitPlayer` | src/main.c:87-120 | the constructed player is exactly `InitialState` |
| `FirstPerson.Player.SpeedAndFov` | src/main.c:146-156 | the speed block returns the crouch > sprint > walk gait of the object's flags |
| `FirstPerson.Player.Accelerate` | src/main.c:158-168 | horizontal velocity is smoothed toward the target velocity and `velocity.y` is unchanged |
| `FirstPerson.Player.FallJumpLand` | src/main.c:170-183 | the vertical state becomes `VerticalStep` of the old one; horizontal velocity is unchanged |
| `FirstPerson.Player.MoveCamera` | src/main.c:188-197 | the camera position becomes `MoveEye` of the old one; nothing else in the camera changes |
| `FirstPerson.Player.HeadBobbing` | src/main.c:204-220 | bob phase and camera position become `HeadBob` and `BobEye` of the old ones |
| `FirstPerson.Player.MouseLook` | src/main.c:222-237 | yaw/pitch become `Look` of the old ones and the target is the eye plus the look vector |
| `FirstPerson.Player.DriveBody` | src/main.c:122-183 | the object's state becomes `Drive` of the old one; it returns the target FOV of the crouch > sprint > walk priority |
| `FirstPerson.Player.SettleBody` | src/main.c:185-201 | the object's state becomes `Settle` of the old one |
| `FirstPerson.Player.MoveBody` | src/main.c:121-201 | the object's state becomes `Locomote` of the old one |
| `FirstPerson.Player.UpdateView` | src/main.c:202-237 | the object's state becomes `Present` of the old one |
| `FirstPerson.Player.Update` | src/main.c:121-238 | the object's state becomes `Step` of the old one, and pitch lies within ±89° |
| `Frames.Run` | src/main.c:59-60 | a run of frames never changes the tuning, and leaves pitch within ±89° after at least one frame |
| `Frames.RunFromInitKeepsPitch` | src/main.c:226-229 | from the initial player, pitch stays within ±89° and the tuning stays at its initial values after any sequence of frames |
| `Frames.JumpOnlyOnEdge` | src/main.c:173-177 | across a run, every frame where the jumping flag turns on had the jump key pressed and crouch released, and leaves vertical velocity at `jumpStrength` |
| `Frames.IdleStep` | src/main.c:199-215 | an idle frame scales horizontal velocity by `1 - acc*dt`, clears the moving flag and resets the bob phase to 0 |
| `Frames.IdleFrameSlows` | src/main.c:166-168 | an idle frame with `acc*dt` in [0,1] never increases or reverses either horizontal velocity component |
| `Frames.IdleRunSlows` | src/main.c:166-168 | over any run of such idle frames, neither horizontal speed component grows |

## Left out

- `main` (src/main.c:40-86) is not modelled: window setup, fullscreen, cursor, drawing and the
  FPS text are rendering and I/O. Only its loop calling `UpdatePlayer` once per frame is
  reflected, by `Frames.Run`.
- The keybind file opened at line 53 is not modelled. It is file I/O, its handle is never used,
  and its parsing is commented out.
- raylib's `UpdateCamera` (line 202) is an unknown function of the camera pose and mode. The
  model assumes it leaves `fovy` and `projection` alone. It does not model that raylib's own
  first-person camera mode also reads keys and the mouse. Its code is not part of this model.
  The bob and target properties are stated relative to the pose it returns.
- `sqrtf`, `sinf`, `cosf`, `Vector3Normalize` and `Vector3CrossProduct` are parameters with no
  known values. No property depends on them. The look vector is therefore not proved to have
  unit length.
- IEEE single-precision rounding, NaN and infinities are not modelled. Arithmetic is exact
  over `real`, and the literals are the decimal values written in the code.
- There is no collision resolution against the walls or the cube, because the code has none.
- `FirstPerson.MoveEyeBlend`: the crouch-height blend is shown to stay between the moved
  height and its target only for `10 * dt <= 1`. For longer frames the gap factor
  `1 - 10 * dt` is negative and the height overshoots; only that factor is stated.
- `Frames.IdleRunSlows`: it shows that horizontal speed never grows, not that the player
  stops within a bounded number of frames. Exponential smoothing with `acc * dt < 1` only
  approaches zero.

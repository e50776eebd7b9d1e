/** Many frames in a row: the game loop calls `UpdatePlayer` once per frame, so a run of the
    player is `Step` folded over the frames' inputs. The lemmas here are the properties that
    hold across frames: the view pitch never leaves its clamp, the tuning never changes, a
    jump only ever begins on a frame whose jump edge is set, and a player who holds no
    movement key slows down. */
module Frames {
  import opened Raylib
  import opened Locomotion
  import opened FirstPerson

  /** The player after the frames of `inputs`, oldest first. The tuning is never changed, and
      after at least one frame the pitch lies within +-89 degrees whatever the mouse did. */
  function Run(s: PlayerState, inputs: seq<FrameInput>, lib: Library, cameraMode: int): (r: PlayerState)
    ensures r.tuning == s.tuning
    ensures |inputs| > 0 || -MaxPitch <= s.pitch <= MaxPitch ==> -MaxPitch <= r.pitch <= MaxPitch
    decreases |inputs|
  {
    if |inputs| == 0 then s
    else Step(Run(s, inputs[..|inputs| - 1], lib, cameraMode), inputs[|inputs| - 1], lib, cameraMode)
  }

  /** Running one more frame is one more `Step`. */
  lemma RunSnoc(s: PlayerState, inputs: seq<FrameInput>, k: nat, lib: Library, cameraMode: int)
    requires k < |inputs|
    ensures Run(s, inputs[..k + 1], lib, cameraMode) == Step(Run(s, inputs[..k], lib, cameraMode), inputs[k], lib, cameraMode)
  {
    assert inputs[..k + 1][..k] == inputs[..k];
  }

  /** Starting from `InitPlayer`'s state, every state of the run has its pitch within +-89
      degrees and the tuning of `InitPlayer`. */
  lemma {:induction false} RunFromInitKeepsPitch(inputs: seq<FrameInput>, lib: Library, cameraMode: int)
    ensures var r := Run(InitialState(), inputs, lib, cameraMode);
            -MaxPitch <= r.pitch <= MaxPitch && r.tuning == InitialState().tuning
  {
  }

  /** A jump is edge-triggered across a whole run: whenever the jumping flag goes from false
      to true between two frames, the later frame had the jump key pressed in it, the player
      was not holding crouch, and the vertical velocity is then `jumpStrength`. Holding the
      key down (pressed only on its first frame) cannot start a second jump until the ground
      test has cleared the flag. */
  lemma {:induction false} JumpOnlyOnEdge(s: PlayerState, inputs: seq<FrameInput>, lib: Library, cameraMode: int)
    requires s.tuning.jumpStrength > 0.0
    ensures forall k :: 0 <= k < |inputs| && !Run(s, inputs[..k], lib, cameraMode).isJumping &&
                        Run(s, inputs[..k + 1], lib, cameraMode).isJumping ==>
              inputs[k].spacePressed && !inputs[k].keyLeftControl &&
              Run(s, inputs[..k + 1], lib, cameraMode).velocity.y == s.tuning.jumpStrength
  {
    forall k | 0 <= k < |inputs| && !Run(s, inputs[..k], lib, cameraMode).isJumping &&
               Run(s, inputs[..k + 1], lib, cameraMode).isJumping
      ensures inputs[k].spacePressed && !inputs[k].keyLeftControl &&
              Run(s, inputs[..k + 1], lib, cameraMode).velocity.y == s.tuning.jumpStrength
    {
      RunSnoc(s, inputs, k, lib, cameraMode);
    }
  }

  /** No movement key is held in the frame. */
  predicate Idle(input: FrameInput) {
    !input.keyW && !input.keyA && !input.keyS && !input.keyD
  }

  /** The frame is short enough that one smoothing step does not overshoot: `acc * dt` lies
      in [0, 1]. */
  predicate Gentle(input: FrameInput, t: Tuning) {
    0.0 <= t.acc * input.frameTime <= 1.0
  }

  /** An idle frame: the horizontal velocity is scaled by `1 - acc * dt` on both axes, the
      moving flag is off and the bob phase is back at 0. */
  lemma IdleStep(s: PlayerState, input: FrameInput, lib: Library, cameraMode: int)
    requires Idle(input)
    ensures var r := Step(s, input, lib, cameraMode);
            var k := 1.0 - s.tuning.acc * input.frameTime;
            r.velocity.x == s.velocity.x * k && r.velocity.z == s.velocity.z * k &&
            r.bobbingTime == 0.0 && !r.isMoving
  {
    IdleDecay(s, input, lib);
    var m := Locomote(s, input, lib);
    assert Step(s, input, lib, cameraMode).velocity == m.velocity;
  }

  /** One idle, gentle frame never speeds the player up horizontally: each horizontal
      velocity component keeps its sign or becomes 0 and does not grow in size, and the bob
      phase is back at 0. */
  lemma IdleFrameSlows(s: PlayerState, input: FrameInput, lib: Library, cameraMode: int)
    requires Idle(input) && Gentle(input, s.tuning)
    ensures var r := Step(s, input, lib, cameraMode);
            Abs(r.velocity.x) <= Abs(s.velocity.x) && Abs(r.velocity.z) <= Abs(s.velocity.z) &&
            Sign(r.velocity.x) * Sign(s.velocity.x) >= 0 && Sign(r.velocity.z) * Sign(s.velocity.z) >= 0 &&
            r.bobbingTime == 0.0 && !r.isMoving
  {
    IdleStep(s, input, lib, cameraMode);
    var r := Step(s, input, lib, cameraMode);
    var k := 1.0 - s.tuning.acc * input.frameTime;
    ScaledDown(s.velocity.x, k, r.velocity.x);
    ScaledDown(s.velocity.z, k, r.velocity.z);
  }

  /** Scaling by a factor in [0, 1] keeps the sign (or gives 0) and does not increase the
      size. */
  lemma ScaledDown(x: real, k: real, y: real)
    requires 0.0 <= k <= 1.0 && y == x * k
    ensures Abs(y) <= Abs(x)
    ensures Sign(y) * Sign(x) >= 0
  {
    if x >= 0.0 {
      ProductNonNegative(x, k);
      ProductNonNegative(x, 1.0 - k);
      assert x - y == x * (1.0 - k);
    } else {
      ProductNonNegative(-x, k);
      ProductNonNegative(-x, 1.0 - k);
      assert -y == (-x) * k;
      assert y - x == (-x) * (1.0 - k);
    }
  }

  lemma ProductNonNegative(a: real, b: real)
    requires a >= 0.0 && b >= 0.0
    ensures a * b >= 0.0
  {
  }

  /** Over any run of idle, gentle frames the horizontal speed along each axis never grows:
      with no key held the player coasts to a stop. */
  lemma {:induction false} IdleRunSlows(s: PlayerState, inputs: seq<FrameInput>, lib: Library, cameraMode: int)
    requires forall k :: 0 <= k < |inputs| ==> Idle(inputs[k]) && Gentle(inputs[k], s.tuning)
    ensures Abs(Run(s, inputs, lib, cameraMode).velocity.x) <= Abs(s.velocity.x)
    ensures Abs(Run(s, inputs, lib, cameraMode).velocity.z) <= Abs(s.velocity.z)
    decreases |inputs|
  {
    if |inputs| > 0 {
      var front := inputs[..|inputs| - 1];
      IdleRunSlows(s, front, lib, cameraMode);
      var mid := Run(s, front, lib, cameraMode);
      IdleFrameSlows(mid, inputs[|inputs| - 1], lib, cameraMode);
    }
  }
}

/** The Player entity: its fields and the methods that update them in place,
    each proved to have the effect of the matching function of PlayerSpec. */
module PlayerEntity {
  import opened Physics
  import opened PlayerSpec

  class Player {
    /** runSpeed, jumpSpeed, wallSlideSpeed, maxFallSpeed, groundAccel,
        airAccel and gravity. */
    const tuning: Tuning

    var dx: real
    var dy: real
    var facingDir: Facing
    var animCount: real
    var xDampAmt: real

    // Coyote time and the jump buffer.
    var onGroundCount: real
    var onLeftWallCount: real
    var onRightWallCount: real
    var bufferedJumpCount: real

    var controlledByPlayer: bool

    /** The sounds and the win requested so far. */
    ghost var events: seq<Event>

    /** The abstract value of the player. */
    ghost function State(): PlayerState
      reads this
    {
      PlayerState(dx, dy, facingDir, animCount, xDampAmt,
                  Timers(onGroundCount, onLeftWallCount, onRightWallCount, bufferedJumpCount),
                  controlledByPlayer, events)
    }

    /** A new player: every countdown closed, controlled by the player,
        nothing requested yet. The motion fields start as the Entity base
        class leaves them, which is not part of this model. */
    constructor (physicsScale: real, fps: real)
      requires physicsScale > 0.0 && fps > 0.0
      ensures tuning == PlayerTuning(physicsScale, fps)
      ensures State().timers == ZeroTimers
      ensures controlledByPlayer
      ensures events == []
    {
      tuning := PlayerTuning(physicsScale, fps);
      onGroundCount := 0.0;
      onLeftWallCount := 0.0;
      onRightWallCount := 0.0;
      bufferedJumpCount := 0.0;
      controlledByPlayer := true;
      events := [];
    }

    /** Launch upwards, ask for the jump sound and close every countdown. */
    method Jump()
      modifies this`dy, this`events,
               this`onGroundCount, this`onLeftWallCount, this`onRightWallCount, this`bufferedJumpCount
      ensures dy == -tuning.jumpSpeed
      ensures State().timers == ZeroTimers
      ensures events == old(events) + [JumpSound]
      ensures dx == old(dx) && facingDir == old(facingDir) && animCount == old(animCount)
      ensures xDampAmt == old(xDampAmt) && controlledByPlayer == old(controlledByPlayer)
      ensures State() == PlayerSpec.Jump(old(State()), tuning)
    {
      dy := -tuning.jumpSpeed;
      events := events + [JumpSound];
      onGroundCount := 0.0;
      onLeftWallCount := 0.0;
      onRightWallCount := 0.0;
      bufferedJumpCount := 0.0;
    }

    /** Choose the damping rate from whether the player stands. */
    method DampX(dt: real, standing: bool)
      modifies this`xDampAmt
      ensures xDampAmt == (if standing then tuning.groundAccel else tuning.airAccel)
      ensures State() == PlayerSpec.DampX(old(State()), tuning, standing)
    {
      xDampAmt := if standing then tuning.groundAccel else tuning.airAccel;
    }

    /** Accelerate leftwards, never past -runSpeed, and face left. */
    method MoveLeft(dt: real, standing: bool)
      modifies this`dx, this`facingDir
      ensures dx >= -tuning.runSpeed && facingDir == Left
      ensures tuning.Valid() && dt >= 0.0 && old(dx) >= -tuning.runSpeed ==> dx <= old(dx)
      ensures State() == PlayerSpec.MoveLeft(old(State()), tuning, standing, dt)
    {
      var accel := if standing then tuning.groundAccel else tuning.airAccel;
      dx := dx - accel * dt;
      if dx < -tuning.runSpeed {
        dx := -tuning.runSpeed;
      }
      facingDir := Left;
    }

    /** Accelerate rightwards, never past runSpeed, and face right. */
    method MoveRight(dt: real, standing: bool)
      modifies this`dx, this`facingDir
      ensures dx <= tuning.runSpeed && facingDir == Right
      ensures tuning.Valid() && dt >= 0.0 && old(dx) <= tuning.runSpeed ==> dx >= old(dx)
      ensures State() == PlayerSpec.MoveRight(old(State()), tuning, standing, dt)
    {
      var accel := if standing then tuning.groundAccel else tuning.airAccel;
      dx := dx + accel * dt;
      if dx > tuning.runSpeed {
        dx := tuning.runSpeed;
      }
      facingDir := Right;
    }

    /** Ease a fast fall towards the wall-slide or the maximum fall speed,
        then add gravity. */
    method ApplyGravity(dt: real, againstLeftWall: bool, againstRightWall: bool)
      modifies this`dy
      ensures State() == PlayerSpec.ApplyGravity(old(State()), tuning, againstLeftWall, againstRightWall, dt)
    {
      if againstLeftWall || againstRightWall {
        if dy > tuning.wallSlideSpeed {
          var diff := dy - tuning.wallSlideSpeed;
          dy := dy - 0.5 * diff;
        }
      } else {
        if dy > tuning.maxFallSpeed {
          var diff := dy - tuning.maxFallSpeed;
          dy := dy - 0.5 * diff;
        }
      }
      dy := dy + tuning.gravity * dt;
    }

    /** A hard landing asks for the land sound. */
    method OnDownCollision()
      modifies this`events
      ensures events == old(events) + (if old(dy) > 0.5 * tuning.jumpSpeed then [LandSound] else [])
      ensures State() == PlayerSpec.OnDownCollision(old(State()), tuning)
    {
      if dy > 0.5 * tuning.jumpSpeed {
        events := events + [LandSound];
      }
    }

    /** Run every open countdown down by dt; closed ones stay as they are. */
    method CountDownTimers(dt: real)
      modifies this`onGroundCount, this`onLeftWallCount, this`onRightWallCount, this`bufferedJumpCount
      ensures onGroundCount == Countdown(old(onGroundCount), dt)
      ensures onLeftWallCount == Countdown(old(onLeftWallCount), dt)
      ensures onRightWallCount == Countdown(old(onRightWallCount), dt)
      ensures bufferedJumpCount == Countdown(old(bufferedJumpCount), dt)
    {
      if onGroundCount > 0.0 {
        onGroundCount := onGroundCount - dt;
      }
      if onLeftWallCount > 0.0 {
        onLeftWallCount := onLeftWallCount - dt;
      }
      if onRightWallCount > 0.0 {
        onRightWallCount := onRightWallCount - dt;
      }
      if bufferedJumpCount > 0.0 {
        bufferedJumpCount := bufferedJumpCount - dt;
      }
    }

    /** Re-open the grace window of every surface the player touches. */
    method ReArmGraceTimers(env: Surroundings)
      modifies this`onGroundCount, this`onLeftWallCount, this`onRightWallCount
      ensures onGroundCount == (if env.standing then COYOTE_TIME_SECS else old(onGroundCount))
      ensures onLeftWallCount == (if env.againstLeftWall then COYOTE_TIME_SECS else old(onLeftWallCount))
      ensures onRightWallCount == (if env.againstRightWall then COYOTE_TIME_SECS else old(onRightWallCount))
    {
      if env.standing {
        onGroundCount := COYOTE_TIME_SECS;
      }
      if env.againstLeftWall {
        onLeftWallCount := COYOTE_TIME_SECS;
      }
      if env.againstRightWall {
        onRightWallCount := COYOTE_TIME_SECS;
      }
    }

    /** The timer part of a frame: run the countdowns down, re-arm the
        grace windows of the surfaces touched, and arm the buffer on a jump
        press. */
    method AdvanceTimers(dt: real, env: Surroundings, jumpPressed: bool)
      modifies this`onGroundCount, this`onLeftWallCount, this`onRightWallCount, this`bufferedJumpCount
      ensures State() == old(State()).(timers := TimerStep(old(State().timers), env, jumpPressed, dt))
    {
      CountDownTimers(dt);
      ReArmGraceTimers(env);
      if jumpPressed {
        bufferedJumpCount := BUFFER_JUMP_TIME_SECS;
      }
    }

    /** While a jump is buffered, jump from the first open grace window:
        the ground, then the left wall, then the right wall. A wall jump
        kicks the player away from the wall at full run speed. */
    method ResolveBufferedJump()
      modifies this`dx, this`dy, this`facingDir, this`events,
               this`onGroundCount, this`onLeftWallCount, this`onRightWallCount, this`bufferedJumpCount
      ensures State() == ResolveJump(old(State()), tuning)
    {
      if bufferedJumpCount > 0.0 {
        if onGroundCount > 0.0 {
          Jump();
        } else if onLeftWallCount > 0.0 {
          // Wall jump, away to the right.
          dx := tuning.runSpeed;
          facingDir := Right;
          Jump();
        } else if onRightWallCount > 0.0 {
          dx := -tuning.runSpeed;
          facingDir := Left;
          Jump();
        }
      }
    }

    /** Left alone runs moveLeft, right alone runs moveRight, and neither
        or both runs dampX: exactly one of the three per frame. */
    method SteerHorizontally(dt: real, standing: bool, keys: Keys)
      modifies this`dx, this`facingDir, this`xDampAmt
      ensures State() == Steer(old(State()), tuning, standing, keys, dt)
    {
      var left := keys.leftHeld;
      var right := keys.rightHeld;
      if left && !right {
        MoveLeft(dt, standing);
      } else if right && !left {
        MoveRight(dt, standing);
      } else {
        DampX(dt, standing);
      }
    }

    /** One frame: the animation clock, the countdowns, the buffered jump,
        the steering, gravity and the goal check. The position update
        against the tiles (moveX, moveY) is not part of this model. */
    method Update(dt: real, env: Surroundings, keyboard: Keys)
      modifies this
      ensures State() == PlayerSpec.Update(old(State()), tuning, Frame(env, keyboard, dt))
    {
      ghost var s0 := State();
      var keys := if controlledByPlayer then keyboard else NullKeys;
      assert keys == EffectiveKeys(s0, keyboard);
      animCount := animCount + dt;
      AdvanceTimers(dt, env, keys.jumpPressedThisFrame);
      ghost var s1 := State();
      assert s1 == BeginFrame(s0, Frame(env, keyboard, dt));

      ResolveBufferedJump();
      SteerHorizontally(dt, env.standing, keys);
      ApplyGravity(dt, env.againstLeftWall, env.againstRightWall);
      // The position update against the tiles (moveX, moveY) comes here.
      if env.touchingGoal {
        events := events + [LevelWon];
      }
    }
  }
}
